/** The CPF mask `ddd.ddd.ddd-dd` that the login page and the collection
    search apply on every keystroke: digits only, at most eleven, then three
    single (non-global) regular-expression replacements. */
module Cpf {
  import opened Api
  import opened Text

  /** Four digits start at `i`: a match of `(\d{3})(\d)` at `i`. */
  predicate RunAt(s: string, i: nat)
  {
    i + 4 <= |s| && IsDigit(s[i]) && IsDigit(s[i + 1]) && IsDigit(s[i + 2]) && IsDigit(s[i + 3])
  }

  /** The leftmost match of `(\d{3})(\d)` at or after `i`. */
  function FirstRun(s: string, i: nat): (r: Option<nat>)
    ensures r.Some? ==> i <= r.value && RunAt(s, r.value)
    ensures r.Some? ==> forall j :: i <= j < r.value ==> !RunAt(s, j)
    ensures r.None? ==> forall j :: i <= j ==> !RunAt(s, j)
    decreases |s| - i
  {
    if i + 4 > |s| then None
    else if RunAt(s, i) then Some(i)
    else FirstRun(s, i + 1)
  }

  /** `replace(/(\d{3})(\d)/, "$1.$2")`: a dot after the first three digits
      of the leftmost run of four. */
  function DotFirst(s: string): string
  {
    match FirstRun(s, 0)
    case None => s
    case Some(k) => s[..k + 3] + "." + s[k + 3..]
  }

  predicate DigitRun(s: string, i: nat, j: nat)
    requires i <= j <= |s|
  {
    forall k :: i <= k < j ==> IsDigit(s[k])
  }

  /** `replace(/(\d{3})(\d{1,2})$/, "$1-$2")`: the leftmost match is the
      one on the last five characters when they are all digits, else on the
      last four; the dash goes after its first three digits. */
  function DashTail(s: string): string
  {
    if |s| >= 5 && DigitRun(s, |s| - 5, |s|) then s[..|s| - 2] + "-" + s[|s| - 2..]
    else if |s| >= 4 && DigitRun(s, |s| - 4, |s|) then s[..|s| - 1] + "-" + s[|s| - 1..]
    else s
  }

  /** `formatCPF` */
  function FormatCpf(s: string): string
  {
    DashTail(DotFirst(DotFirst(Take(Digits(s), 11))))
  }

  /** The mask as a function of the number of digits. */
  function CpfMask(v: string): (f: string)
    requires AllDigits(v) && |v| <= 11
    ensures |v| <= 3 ==> f == v
  {
    if |v| <= 3 then v
    else if |v| <= 6 then v[..3] + "." + v[3..]
    else if |v| <= 9 then v[..3] + "." + v[3..6] + "." + v[6..]
    else v[..3] + "." + v[3..6] + "." + v[6..9] + "-" + v[9..]
  }

  lemma FirstRunIs(s: string, k: nat)
    requires RunAt(s, k)
    requires forall j :: 0 <= j < k ==> !RunAt(s, j)
    ensures FirstRun(s, 0) == Some(k)
  {
  }

  lemma NoRun(s: string)
    requires forall j: nat :: j + 4 <= |s| ==> !RunAt(s, j)
    ensures FirstRun(s, 0) == None
  {
  }

  /** On four digits or more, the first replacement puts a dot after the
      third digit. */
  lemma FirstDot(v: string)
    requires AllDigits(v) && |v| >= 4
    ensures DotFirst(v) == v[..3] + "." + v[3..]
  {
    FirstRunIs(v, 0);
  }

  /** After the first dot, the second replacement finds a run only from
      the seventh digit on. */
  lemma SecondDot(v: string)
    requires AllDigits(v) && |v| >= 4
    ensures var w := v[..3] + "." + v[3..];
            DotFirst(w) == if |v| < 7 then w else v[..3] + "." + v[3..6] + "." + v[6..]
  {
    var w := v[..3] + "." + v[3..];
    assert w[3] == '.' && !IsDigit(w[3]);
    if |v| < 7 {
      assert forall j: nat :: j + 4 <= |w| ==> !RunAt(w, j) by {
        forall j: nat | j + 4 <= |w| ensures !RunAt(w, j) {
          assert j <= 3;
        }
      }
      NoRun(w);
    } else {
      assert forall j :: 0 <= j < 4 ==> !RunAt(w, j);
      assert w[4..8] == v[3..7];
      FirstRunIs(w, 4);
      assert w[..7] == v[..3] + "." + v[3..6] && w[7..] == v[6..];
    }
  }

  /** The last replacement adds a dash only to ten or eleven digits. */
  lemma LastDash(v: string)
    requires AllDigits(v) && 7 <= |v| <= 11
    ensures var x := v[..3] + "." + v[3..6] + "." + v[6..];
            DashTail(x) == if |v| <= 9 then x else v[..3] + "." + v[3..6] + "." + v[6..9] + "-" + v[9..]
  {
    var x := v[..3] + "." + v[3..6] + "." + v[6..];
    assert x[7] == '.' && !IsDigit(x[7]);
    assert x[8..] == v[6..];
    if |v| <= 9 {
      assert !DigitRun(x, |x| - 4, |x|);
    } else if |v| == 10 {
      assert !DigitRun(x, |x| - 5, |x|);
      assert DigitRun(x, |x| - 4, |x|);
      assert x[..|x| - 1] == v[..3] + "." + v[3..6] + "." + v[6..9];
    } else {
      assert DigitRun(x, |x| - 5, |x|);
      assert x[..|x| - 2] == v[..3] + "." + v[3..6] + "." + v[6..9];
    }
  }

  /** The three replacements lay out up to eleven digits by their count. */
  lemma MaskSteps(v: string)
    requires AllDigits(v) && |v| <= 11
    ensures DashTail(DotFirst(DotFirst(v))) == CpfMask(v)
  {
    if |v| < 4 {
      NoRun(v);
    } else {
      FirstDot(v);
      SecondDot(v);
      var w := v[..3] + "." + v[3..];
      if |v| < 7 {
        assert w[3] == '.' && !IsDigit(w[3]);
        assert !DigitRun(w, |w| - 4, |w|);
      } else {
        LastDash(v);
      }
    }
  }

  /** `formatCPF` keeps the first eleven digits and punctuates them by count. */
  lemma FormatCpfLayout(s: string)
    ensures FormatCpf(s) == CpfMask(Take(Digits(s), 11))
  {
    MaskSteps(Take(Digits(s), 11));
  }

  /** The mask adds no digit and loses none. */
  lemma CpfMaskDigits(v: string)
    requires AllDigits(v) && |v| <= 11
    ensures Digits(CpfMask(v)) == v
  {
    DigitsOfDigits(v);
    if |v| > 3 {
      DigitsOfDigits(v[..3]);
    }
    if |v| <= 3 {
    } else if |v| <= 6 {
      DigitsJoin(v[..3], '.', v[3..]);
      assert v[..3] + v[3..] == v;
    } else if |v| <= 9 {
      DigitsJoin(v[..3] + "." + v[3..6], '.', v[6..]);
      DigitsJoin(v[..3], '.', v[3..6]);
      assert v[..3] + v[3..6] + v[6..] == v;
    } else {
      DigitsJoin(v[..3] + "." + v[3..6] + "." + v[6..9], '-', v[9..]);
      DigitsJoin(v[..3] + "." + v[3..6], '.', v[6..9]);
      DigitsJoin(v[..3], '.', v[3..6]);
      assert v[..3] + v[3..6] + v[6..9] + v[9..] == v;
    }
  }

  /** Stripping the punctuation from the mask gives the first min(n, 11)
      digits of the input. */
  lemma FormatCpfDigits(s: string)
    ensures Digits(FormatCpf(s)) == Take(Digits(s), 11)
  {
    FormatCpfLayout(s);
    CpfMaskDigits(Take(Digits(s), 11));
  }

  /** The mask leaves its own output as it is. */
  lemma FormatCpfIdempotent(s: string)
    ensures FormatCpf(FormatCpf(s)) == FormatCpf(s)
  {
    FormatCpfDigits(s);
    FormatCpfLayout(s);
    FormatCpfLayout(FormatCpf(s));
  }

  /** A complete CPF reads `ddd.ddd.ddd-dd`. */
  lemma FormatCpfFull(s: string)
    requires |Digits(s)| >= 11
    ensures var f := FormatCpf(s);
            |f| == 14 && f[3] == '.' && f[7] == '.' && f[11] == '-'
  {
    FormatCpfLayout(s);
    FullMask(Take(Digits(s), 11));
  }

  lemma FullMask(v: string)
    requires AllDigits(v) && |v| == 11
    ensures var f := CpfMask(v);
            |f| == 14 && f[3] == '.' && f[7] == '.' && f[11] == '-'
  {
    var f := v[..3] + "." + v[3..6] + "." + v[6..9] + "-" + v[9..];
    assert CpfMask(v) == f;
  }
}
