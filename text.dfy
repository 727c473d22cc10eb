/** String operations the front end and the routes build on: the
    `replace(/\D/g, '')` digit filter, `trim`, `includes`, ASCII case mapping
    and `Number` / `String` on natural numbers. */
module Text {
  import opened Api

  predicate IsDigit(c: char) { '0' <= c <= '9' }

  predicate AllDigits(s: string) { forall i :: 0 <= i < |s| ==> IsDigit(s[i]) }

  /** `s.replace(/\D/g, '')`: the decimal digits of `s`, in order. */
  function Digits(s: string): (d: string)
    ensures AllDigits(d)
    ensures |d| <= |s|
  {
    if s == [] then []
    else if IsDigit(s[0]) then [s[0]] + Digits(s[1..])
    else Digits(s[1..])
  }

  lemma {:induction false} DigitsConcat(a: string, b: string)
    ensures Digits(a + b) == Digits(a) + Digits(b)
  {
    if a == [] {
      assert a + b == b;
    } else {
      assert (a + b)[0] == a[0];
      assert (a + b)[1..] == a[1..] + b;
      DigitsConcat(a[1..], b);
    }
  }

  /** A string that is already all digits passes the filter unchanged. */
  lemma {:induction false} DigitsOfDigits(s: string)
    requires AllDigits(s)
    ensures Digits(s) == s
  {
    if s != [] {
      DigitsOfDigits(s[1..]);
    }
  }

  /** The filter is idempotent. */
  lemma DigitsIdempotent(s: string)
    ensures Digits(Digits(s)) == Digits(s)
  {
    DigitsOfDigits(Digits(s));
  }

  /** A string with no digit filters to the empty string. */
  lemma {:induction false} DigitsOfNonDigits(s: string)
    requires forall i :: 0 <= i < |s| ==> !IsDigit(s[i])
    ensures Digits(s) == ""
  {
    if s != [] {
      DigitsOfNonDigits(s[1..]);
    }
  }

  /** A separator followed by digits filters down to those digits. */
  lemma DigitsJoin(a: string, c: char, b: string)
    requires AllDigits(b) && !IsDigit(c)
    ensures Digits(a + [c] + b) == Digits(a) + b
  {
    DigitsConcat(a + [c], b);
    DigitsConcat(a, [c]);
    DigitsOfDigits(b);
    assert [c][1..] == [];
  }

  /** The first `n` characters, like `substring(0, n)`. */
  function Take(s: string, n: nat): (t: string)
    ensures |t| == if |s| < n then |s| else n
    ensures t <= s
  {
    if |s| <= n then s else s[..n]
  }

  function Min(a: int, b: int): int { if a <= b then a else b }

  // ---------------------------------------------------------------- trim

  /** The white space `String.prototype.trim` removes (the ASCII ones, the
      no-break space and the byte-order mark). */
  predicate IsSpace(c: char)
  {
    c == ' ' || c == '\t' || c == '\n' || c == '\r' || c == '\U{B}' || c == '\U{C}'
    || c == '\U{A0}' || c == '\U{FEFF}'
  }

  function TrimStart(s: string): (t: string)
    ensures |t| <= |s| && t == s[|s| - |t|..]
    ensures t == [] || !IsSpace(t[0])
    ensures forall i :: 0 <= i < |s| - |t| ==> IsSpace(s[i])
  {
    if s != [] && IsSpace(s[0]) then TrimStart(s[1..]) else s
  }

  function TrimEnd(s: string): (t: string)
    ensures |t| <= |s| && t == s[..|t|]
    ensures t == [] || !IsSpace(t[|t| - 1])
    ensures forall i :: |t| <= i < |s| ==> IsSpace(s[i])
  {
    if s != [] && IsSpace(s[|s| - 1]) then TrimEnd(s[..|s| - 1]) else s
  }

  /** `s.trim()`: the part of `s` between its leading and trailing white space. */
  function Trim(s: string): (t: string)
    ensures |t| <= |s|
    ensures t == [] || (!IsSpace(t[0]) && !IsSpace(t[|t| - 1]))
    ensures t == [] <==> forall i :: 0 <= i < |s| ==> IsSpace(s[i])
  {
    var u := TrimStart(s);
    var t := TrimEnd(u);
    assert t == [] ==> u == [];
    t
  }

  // ---------------------------------------------------------------- includes

  /** `s.includes(t)`. */
  predicate Contains(s: string, t: string)
  {
    exists i :: 0 <= i <= |s| - |t| && t <= s[i..]
  }

  lemma ContainsEmpty(s: string)
    ensures Contains(s, "")
  {
    assert "" <= s[0..];
  }

  // ---------------------------------------------------------------- case

  function LowerChar(c: char): char
  {
    if 'A' <= c <= 'Z' then (c as int - 'A' as int + 'a' as int) as char else c
  }

  function UpperChar(c: char): char
  {
    if 'a' <= c <= 'z' then (c as int - 'a' as int + 'A' as int) as char else c
  }

  /** `toLowerCase`, on ASCII letters. */
  function Lower(s: string): (t: string)
    ensures |t| == |s|
  {
    seq(|s|, i requires 0 <= i < |s| => LowerChar(s[i]))
  }

  /** `toUpperCase`, on ASCII letters. */
  function Upper(s: string): (t: string)
    ensures |t| == |s|
  {
    seq(|s|, i requires 0 <= i < |s| => UpperChar(s[i]))
  }

  // ---------------------------------------------------------------- numbers

  function DigitValue(c: char): nat requires IsDigit(c) { c as int - '0' as int }

  function DigitChar(n: nat): (c: char)
    requires n < 10
    ensures IsDigit(c) && DigitValue(c) == n
  {
    ('0' as int + n) as char
  }

  /** `Number(d)` for a non-empty string of decimal digits. */
  function ParseNat(d: string): nat
    requires AllDigits(d)
  {
    if d == [] then 0 else ParseNat(d[..|d| - 1]) * 10 + DigitValue(d[|d| - 1])
  }

  /** `String(n)` for a natural number. */
  function NatToString(n: nat): (s: string)
    ensures AllDigits(s) && s != []
  {
    if n < 10 then [DigitChar(n)] else NatToString(n / 10) + [DigitChar(n % 10)]
  }

  /** `Number(String(n)) == n`. */
  lemma {:induction false} ParseNatToString(n: nat)
    ensures ParseNat(NatToString(n)) == n
  {
    var s := NatToString(n);
    if n < 10 {
      assert s[..|s| - 1] == [];
    } else {
      ParseNatToString(n / 10);
      assert s[..|s| - 1] == NatToString(n / 10);
    }
  }

  /** The numeric-input handlers' parse: keep the digits; none gives
      `undefined` (or `null`), otherwise their value. */
  function ParseDigits(s: string): (r: Option<nat>)
    ensures r == None <==> Digits(s) == ""
    ensures r.Some? ==> r.value == ParseNat(Digits(s))
  {
    var d := Digits(s);
    if d == "" then None else Some(ParseNat(d))
  }

  /** The digits of a decimal number are taken whole: "2.5" gives 25. */
  lemma ParseDecimalPoint()
    ensures ParseDigits("2.5") == Some(25)
  {
    assert Digits("2.5") == "25" by {
      assert "2.5"[1..] == ".5";
      assert ".5"[1..] == "5";
      assert "5"[1..] == "";
    }
    assert "25"[..1] == "2";
    assert "2"[..0] == "";
  }
}
