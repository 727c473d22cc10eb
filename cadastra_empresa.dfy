/** The company registration form: the CNPJ mask applied on every
    keystroke, the CNPJ check, the form validation and the submit. */
module CadastraEmpresa {
  import opened Api
  import opened Text

  /** `validateCNPJ`: exactly fourteen digits, whatever else the text holds. */
  predicate ValidCnpj(s: string)
  {
    |Digits(s)| == 14
  }

  /** The mask `DD.DDD.DDD/DDDD-DD` laid over a string of digits, as far as
      the digits go; digits past the fourteenth are dropped. */
  function CnpjLayout(c: string): (f: string)
    requires AllDigits(c)
    ensures |f| <= 18
    ensures |c| <= 2 ==> f == c
  {
    if |c| <= 2 then c
    else if |c| <= 5 then c[..2] + "." + c[2..]
    else if |c| <= 8 then c[..2] + "." + c[2..5] + "." + c[5..]
    else if |c| <= 12 then c[..2] + "." + c[2..5] + "." + c[5..8] + "/" + c[8..]
    else c[..2] + "." + c[2..5] + "." + c[5..8] + "/" + c[8..12] + "-" + c[12..Min(|c|, 14)]
  }

  /** `formatCNPJ` */
  function FormatCnpj(s: string): (f: string)
    ensures |f| <= 18
  {
    CnpjLayout(Digits(s))
  }

  /** The punctuated layouts of two to fourteen digits strip back to the
      digits, each one built on the previous. */
  lemma LayoutDigits5(c: string)
    requires AllDigits(c) && 2 <= |c| <= 5
    ensures Digits(c[..2] + "." + c[2..]) == c
  {
    DigitsJoin(c[..2], '.', c[2..]);
    DigitsOfDigits(c[..2]);
    assert c[..2] + c[2..] == c;
  }

  lemma LayoutDigits8(c: string)
    requires AllDigits(c) && 5 <= |c| <= 8
    ensures Digits(c[..2] + "." + c[2..5] + "." + c[5..]) == c
  {
    var p := c[..5];
    LayoutDigits5(p);
    assert p[..2] == c[..2] && p[2..] == c[2..5];
    DigitsJoin(c[..2] + "." + c[2..5], '.', c[5..]);
    assert p + c[5..] == c;
  }

  lemma LayoutDigits12(c: string)
    requires AllDigits(c) && 8 <= |c| <= 12
    ensures Digits(c[..2] + "." + c[2..5] + "." + c[5..8] + "/" + c[8..]) == c
  {
    var p := c[..8];
    LayoutDigits8(p);
    assert p[..2] == c[..2] && p[2..5] == c[2..5] && p[5..] == c[5..8];
    DigitsJoin(c[..2] + "." + c[2..5] + "." + c[5..8], '/', c[8..]);
    assert p + c[8..] == c;
  }

  lemma LayoutDigits14(c: string)
    requires AllDigits(c) && 12 <= |c| <= 14
    ensures Digits(c[..2] + "." + c[2..5] + "." + c[5..8] + "/" + c[8..12] + "-" + c[12..]) == c
  {
    var p := c[..12];
    LayoutDigits12(p);
    assert p[..2] == c[..2] && p[2..5] == c[2..5] && p[5..8] == c[5..8] && p[8..] == c[8..12];
    DigitsJoin(c[..2] + "." + c[2..5] + "." + c[5..8] + "/" + c[8..12], '-', c[12..]);
    assert p + c[12..] == c;
  }

  /** The mask keeps the first (at most fourteen) digits and adds no other digit. */
  lemma CnpjLayoutDigits(c: string)
    requires AllDigits(c)
    ensures Digits(CnpjLayout(c)) == Take(c, 14)
  {
    var n := |c|;
    if n <= 2 {
      DigitsOfDigits(c);
    } else if n <= 5 {
      LayoutDigits5(c);
    } else if n <= 8 {
      LayoutDigits8(c);
    } else if n <= 12 {
      LayoutDigits12(c);
    } else {
      var t := Take(c, 14);
      LayoutDigits14(t);
      assert t[..2] == c[..2] && t[2..5] == c[2..5] && t[5..8] == c[5..8] && t[8..12] == c[8..12];
      assert t[12..] == c[12..Min(n, 14)];
    }
  }

  /** Stripping the punctuation of the mask gives back the first
      min(n, 14) digits of the input. */
  lemma FormatCnpjDigits(s: string)
    ensures Digits(FormatCnpj(s)) == Take(Digits(s), 14)
  {
    CnpjLayoutDigits(Digits(s));
  }

  /** Only the first fourteen digits matter to the mask. */
  lemma CnpjLayoutTake(c: string)
    requires AllDigits(c)
    ensures CnpjLayout(Take(c, 14)) == CnpjLayout(c)
  {
    if |c| > 14 {
      assert Take(c, 14)[12..14] == c[12..14];
    }
  }

  /** The mask is re-applied to its own output on every keystroke and
      leaves it as it is. */
  lemma FormatCnpjIdempotent(s: string)
    ensures FormatCnpj(FormatCnpj(s)) == FormatCnpj(s)
  {
    FormatCnpjDigits(s);
    CnpjLayoutTake(Digits(s));
  }

  /** `DD.DDD.DDD/DDDD-DD` */
  predicate CnpjShaped(f: string)
  {
    && |f| == 18
    && f[2] == '.' && f[6] == '.' && f[10] == '/' && f[15] == '-'
    && forall i :: 0 <= i < 18 && i != 2 && i != 6 && i != 10 && i != 15 ==> IsDigit(f[i])
  }

  /** With fourteen digits or more the whole mask is filled. */
  lemma FormatCnpjFull(s: string)
    requires |Digits(s)| >= 14
    ensures CnpjShaped(FormatCnpj(s))
  {
    var c := Digits(s);
    var f := FormatCnpj(s);
    assert f == c[..2] + "." + c[2..5] + "." + c[5..8] + "/" + c[8..12] + "-" + c[12..14];
    forall i | 0 <= i < 18 && i != 2 && i != 6 && i != 10 && i != 15
      ensures IsDigit(f[i])
    {
      if i < 2 { assert f[i] == c[i]; }
      else if i < 6 { assert f[i] == c[i - 1]; }
      else if i < 10 { assert f[i] == c[i - 2]; }
      else if i < 15 { assert f[i] == c[i - 3]; }
      else { assert f[i] == c[i - 4]; }
    }
  }

  /** A masked CNPJ passes the check exactly when the input had at least
      fourteen digits. */
  lemma ValidFormattedCnpj(s: string)
    ensures ValidCnpj(FormatCnpj(s)) <==> |Digits(s)| >= 14
  {
    FormatCnpjDigits(s);
  }

  // ------------------------------------------------------------ the form

  datatype Field = Cnpj | RazaoSocial | AreaAtuacao

  /** The message shown under a field. */
  datatype Issue = Required | Invalid | TooShort | SubmitFailed

  /** What `creatEmpresa` posts. */
  datatype Payload = Payload(cnpj: string, razao_social: string, area_atuacao: string)

  /** The errors `validateForm` records for the given field values. */
  function FormErrors(cnpj: string, razaoSocial: string): (errs: map<Field, Issue>)
    ensures Cnpj in errs <==> cnpj == "" || !ValidCnpj(cnpj)
    ensures Cnpj in errs ==> errs[Cnpj] == (if cnpj == "" then Required else Invalid)
    ensures RazaoSocial in errs <==> |Trim(razaoSocial)| < 3
    ensures RazaoSocial in errs ==> errs[RazaoSocial] == (if Trim(razaoSocial) == "" then Required else TooShort)
    ensures AreaAtuacao !in errs
  {
    var c := if cnpj == "" then map[Cnpj := Required]
             else if !ValidCnpj(cnpj) then map[Cnpj := Invalid]
             else map[];
    var t := Trim(razaoSocial);
    if t == "" then c[RazaoSocial := Required]
    else if |t| < 3 then c[RazaoSocial := TooShort]
    else c
  }

  class EmpresaForm {
    var cnpj: string
    var razaoSocial: string
    var areaAtuacao: string
    var errors: map<Field, Issue>
    var success: bool

    /** The CNPJ field only ever holds masked text. */
    predicate Valid()
      reads this
    {
      cnpj == FormatCnpj(cnpj)
    }

    constructor ()
      ensures Valid()
      ensures cnpj == "" && razaoSocial == "" && areaAtuacao == "" && errors == map[] && !success
    {
      cnpj, razaoSocial, areaAtuacao := "", "", "";
      errors := map[];
      success := false;
    }

    /** `handleChange`: the CNPJ is masked as typed; the edited field's error
        is cleared. */
    method HandleChange(field: Field, value: string)
      requires Valid()
      modifies this
      ensures Valid()
      ensures field == Cnpj ==> cnpj == FormatCnpj(value) && razaoSocial == old(razaoSocial)
                                && areaAtuacao == old(areaAtuacao)
      ensures field == RazaoSocial ==> razaoSocial == value && cnpj == old(cnpj) && areaAtuacao == old(areaAtuacao)
      ensures field == AreaAtuacao ==> areaAtuacao == value && cnpj == old(cnpj) && razaoSocial == old(razaoSocial)
      ensures errors == old(errors) - {field}
      ensures success == old(success)
    {
      match field {
        case Cnpj =>
          cnpj := FormatCnpj(value);
          FormatCnpjIdempotent(value);
        case RazaoSocial => razaoSocial := value;
        case AreaAtuacao => areaAtuacao := value;
      }
      errors := errors - {field};
    }

    /** `validateForm`: record the errors field by field; valid iff none. */
    method ValidateForm() returns (valid: bool)
      modifies this`errors
      ensures errors == FormErrors(cnpj, razaoSocial)
      ensures valid <==> errors == map[]
    {
      var newErrors: map<Field, Issue> := map[];
      if cnpj == "" {
        newErrors := newErrors[Cnpj := Required];
      } else if !ValidCnpj(cnpj) {
        newErrors := newErrors[Cnpj := Invalid];
      }
      var t := Trim(razaoSocial);
      if t == "" {
        newErrors := newErrors[RazaoSocial := Required];
      } else if |t| < 3 {
        newErrors := newErrors[RazaoSocial := TooShort];
      }
      assert newErrors == FormErrors(cnpj, razaoSocial);
      errors := newErrors;
      valid := newErrors == map[];
    }

    /** `handleSubmit`. `apiOk` is whether the POST succeeded. An invalid
        form sends nothing; the CNPJ is sent as its fourteen digits; success
        clears the form, failure records an error on the company name. */
    method HandleSubmit(apiOk: bool) returns (sent: Option<Payload>)
      requires Valid()
      modifies this
      ensures Valid()
      ensures sent == None <==> old(FormErrors(cnpj, razaoSocial)) != map[]
      ensures sent == None ==> errors == old(FormErrors(cnpj, razaoSocial))
                               && cnpj == old(cnpj) && razaoSocial == old(razaoSocial)
                               && areaAtuacao == old(areaAtuacao) && success == old(success)
      ensures sent.Some? ==> sent.value == Payload(Digits(old(cnpj)), old(razaoSocial), old(areaAtuacao))
      ensures sent.Some? ==> |sent.value.cnpj| == 14 && AllDigits(sent.value.cnpj)
      ensures sent.Some? && apiOk ==>
                success && cnpj == "" && razaoSocial == "" && areaAtuacao == "" && errors == map[]
      ensures sent.Some? && !apiOk ==>
                errors == map[RazaoSocial := SubmitFailed] && cnpj == old(cnpj)
                && razaoSocial == old(razaoSocial) && areaAtuacao == old(areaAtuacao) && success == old(success)
    {
      var valid := ValidateForm();
      if !valid {
        return None;
      }
      sent := Some(Payload(Digits(cnpj), razaoSocial, areaAtuacao));
      if apiOk {
        success := true;
        cnpj, razaoSocial, areaAtuacao := "", "", "";
      } else {
        errors := map[RazaoSocial := SubmitFailed];
      }
    }
  }
}
