/** The collection-receiving page: search the (mock) scheduled collections
    by the digits of a masked CPF. */
module ReceiveCollection {
  import opened Text
  import opened Seqs
  import opened Cpf

  /** A scheduled collection, as the page lists it. */
  datatype Coleta = Coleta(id_ponto: int, cpf: string, status: string, data: string)

  /** The two entries the page searches. */
  const Mock: seq<Coleta> := [
    Coleta(1, "02798912105", "agendada", "2025-11-17"),
    Coleta(2, "98765432100", "concluida", "2025-11-20")
  ]

  /** The collections scheduled for the person with these digits. */
  predicate Scheduled(digits: string, c: Coleta)
  {
    c.cpf == digits && c.status == "agendada"
  }

  /** `handleSearch`'s filter. */
  function Search(input: string): (r: seq<Coleta>)
    ensures |r| <= |Mock|
    ensures forall i :: 0 <= i < |r| ==> r[i].cpf == Digits(input) && r[i].status == "agendada"
  {
    Filter(Mock, c => Scheduled(Digits(input), c))
  }

  /** The result keeps the list's order: it is a subsequence of it. */
  lemma SearchSubsequence(input: string)
    ensures IsSubsequence(Search(input), Mock)
  {
    FilterIsSubsequence(Mock, c => Scheduled(Digits(input), c));
  }

  /** An entry is found exactly when it is listed, scheduled and has the
      searched digits. */
  lemma SearchMembership(input: string, c: Coleta)
    ensures c in Search(input) <==> c in Mock && c.cpf == Digits(input) && c.status == "agendada"
  {
    FilterMembership(Mock, c => Scheduled(Digits(input), c), c);
  }

  /** Only the first entry can ever be found, and only by its own digits. */
  lemma SearchResult(input: string)
    ensures Search(input) == if Digits(input) == "02798912105" then [Mock[0]] else []
  {
    var p := c => Scheduled(Digits(input), c);
    assert Mock[1..] == [Mock[1]];
    assert Mock[1..][1..] == [];
    assert !p(Mock[1]) by {
      assert Mock[1].status[0] != "agendada"[0];
    }
  }

  /** Searching with the masked field gives the same result as searching
      with the first eleven typed digits. */
  lemma SearchMasked(typed: string)
    ensures Search(FormatCpf(typed)) == Search(Take(Digits(typed), 11))
  {
    FormatCpfDigits(typed);
    DigitsOfDigits(Take(Digits(typed), 11));
  }

  class ReceivePage {
    var cpf: string
    var collections: seq<Coleta>

    constructor ()
      ensures cpf == "" && collections == []
    {
      cpf := "";
      collections := [];
    }

    method ChangeCpf(value: string)
      modifies this`cpf
      ensures cpf == FormatCpf(value)
    {
      cpf := FormatCpf(value);
    }

    /** `handleSearch`: show the scheduled collections of the typed CPF. */
    method HandleSearch()
      modifies this`collections
      ensures collections == Search(cpf)
      ensures IsSubsequence(collections, Mock)
    {
      collections := Search(cpf);
      SearchSubsequence(cpf);
    }
  }
}
