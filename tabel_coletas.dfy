/** The "my collections" table: the search and filter over the loaded
    rows, the per-status counts, the status colour and the status chip. */
module TabelColetas {
  import opened Api
  import opened Text
  import opened Seqs

  /** A row of the person's collections; the two text columns may be null. */
  datatype ColetaRow = ColetaRow(status: string, localizacao: Option<string>, tipos_residuos: Option<string>)

  /** `value || ''` on a nullable text column. */
  function OrEmpty(v: Option<string>): (s: string)
    ensures v.Some? && v.value != "" ==> s == v.value
    ensures v.None? ==> s == ""
  {
    match v
    case None => ""
    case Some(s) => s
  }

  /** The test `filteredColetas` applies to one row: the lower-cased search
      term in the lower-cased location or types, the status filter, and the
      (case-sensitive) type filter. */
  predicate Keep(c: ColetaRow, search: string, statusFilter: string, tipoFilter: string)
  {
    var tipos := OrEmpty(c.tipos_residuos);
    var loc := OrEmpty(c.localizacao);
    && (Contains(Lower(loc), Lower(search)) || Contains(Lower(tipos), Lower(search)))
    && (statusFilter == "todos" || c.status == statusFilter)
    && (tipoFilter == "todos" || Contains(tipos, tipoFilter))
  }

  /** `filteredColetas` */
  function Filtered(data: seq<ColetaRow>, search: string, statusFilter: string, tipoFilter: string)
    : (r: seq<ColetaRow>)
    ensures |r| <= |data|
    ensures forall i :: 0 <= i < |r| ==> Keep(r[i], search, statusFilter, tipoFilter)
  {
    Filter(data, c => Keep(c, search, statusFilter, tipoFilter))
  }

  /** The table shows rows of the data in their original order. */
  lemma FilteredSubsequence(data: seq<ColetaRow>, search: string, statusFilter: string, tipoFilter: string)
    ensures IsSubsequence(Filtered(data, search, statusFilter, tipoFilter), data)
  {
    FilterIsSubsequence(data, c => Keep(c, search, statusFilter, tipoFilter));
  }

  /** A row is shown exactly when it passes all three tests. */
  lemma FilteredMembership(data: seq<ColetaRow>, search: string, statusFilter: string, tipoFilter: string,
                           c: ColetaRow)
    ensures c in Filtered(data, search, statusFilter, tipoFilter) <==>
              c in data && Keep(c, search, statusFilter, tipoFilter)
  {
    FilterMembership(data, c => Keep(c, search, statusFilter, tipoFilter), c);
  }

  /** With no search term and both filters on "todos" every row is shown. */
  lemma UnfilteredShowsAll(data: seq<ColetaRow>)
    ensures Filtered(data, "", "todos", "todos") == data
  {
    forall c: ColetaRow ensures Keep(c, "", "todos", "todos") {
      ContainsEmpty(Lower(OrEmpty(c.localizacao)));
    }
    FilterAll(data, c => Keep(c, "", "todos", "todos"));
  }

  // ------------------------------------------------------------ stats

  /** The four statuses a collection can have. */
  const Statuses: seq<string> := ["concluida", "cancelada", "em_andamento", "agendada"]

  datatype Stats = Stats(total: nat, concluidas: nat, canceladas: nat, em_andamento: nat, agendada: nat)

  function HasStatus(s: string): ColetaRow -> bool
  {
    (c: ColetaRow) => c.status == s
  }

  /** The status column, row by row. */
  function StatusColumn(data: seq<ColetaRow>): (ss: seq<string>)
    ensures |ss| == |data|
    ensures forall i :: 0 <= i < |data| ==> ss[i] == data[i].status
  {
    if data == [] then [] else [data[0].status] + StatusColumn(data[1..])
  }

  /** Counting the rows that pass the filter counts the occurrences of the
      status in the status column. */
  lemma {:induction false} CountOccurrences(data: seq<ColetaRow>, s: string)
    ensures Count(data, HasStatus(s)) == multiset(StatusColumn(data))[s]
  {
    if data != [] {
      CountOccurrences(data[1..], s);
      assert StatusColumn(data) == [data[0].status] + StatusColumn(data[1..]);
      assert multiset(StatusColumn(data)) == multiset{data[0].status} + multiset(StatusColumn(data[1..]));
    }
  }

  /** `stats`: the number of rows, and of rows with each status. */
  function StatsOf(data: seq<ColetaRow>): (st: Stats)
    ensures st.total == |data|
    ensures st.concluidas == |Filter(data, HasStatus("concluida"))|
    ensures st.canceladas == |Filter(data, HasStatus("cancelada"))|
    ensures st.em_andamento == |Filter(data, HasStatus("em_andamento"))|
    ensures st.agendada == |Filter(data, HasStatus("agendada"))|
    ensures var column := multiset(StatusColumn(data));
            && st.concluidas == column["concluida"] && st.canceladas == column["cancelada"]
            && st.em_andamento == column["em_andamento"] && st.agendada == column["agendada"]
  {
    CountOccurrences(data, "concluida");
    CountOccurrences(data, "cancelada");
    CountOccurrences(data, "em_andamento");
    CountOccurrences(data, "agendada");
    Stats(|data|, Count(data, HasStatus("concluida")), Count(data, HasStatus("cancelada")),
          Count(data, HasStatus("em_andamento")), Count(data, HasStatus("agendada")))
  }

  function CountSum(st: Stats): nat
  {
    st.concluidas + st.canceladas + st.em_andamento + st.agendada
  }

  /** The four per-status counts of the rows, added up. */
  function Tally(data: seq<ColetaRow>): nat
  {
    Count(data, HasStatus("concluida")) + Count(data, HasStatus("cancelada"))
    + Count(data, HasStatus("em_andamento")) + Count(data, HasStatus("agendada"))
  }

  /** The first row adds one to the count of its own status. */
  lemma CountStep(data: seq<ColetaRow>, s: string)
    requires data != []
    ensures Count(data, HasStatus(s)) == (if data[0].status == s then 1 else 0) + Count(data[1..], HasStatus(s))
  {
  }

  /** A row counts towards at most one status, so the tally never exceeds
      the number of rows, and reaches it when every status is one of the four. */
  lemma {:induction false} TallyBound(data: seq<ColetaRow>)
    ensures Tally(data) <= |data|
    ensures (forall i :: 0 <= i < |data| ==> data[i].status in Statuses) ==> Tally(data) == |data|
  {
    if data != [] {
      TallyBound(data[1..]);
      CountStep(data, "concluida");
      CountStep(data, "cancelada");
      CountStep(data, "em_andamento");
      CountStep(data, "agendada");
      assert "concluida"[1] != "cancelada"[1] && "concluida"[1] != "em_andamento"[1]
          && "concluida"[1] != "agendada"[1] && "cancelada"[1] != "em_andamento"[1]
          && "cancelada"[1] != "agendada"[1] && "em_andamento"[1] != "agendada"[1];
      if forall i :: 0 <= i < |data| ==> data[i].status in Statuses {
        assert data[0].status in Statuses;
        assert forall i :: 0 <= i < |data[1..]| ==> data[1..][i].status in Statuses by {
          forall i | 0 <= i < |data[1..]| ensures data[1..][i].status in Statuses {
            assert data[1..][i] == data[i + 1];
          }
        }
      }
    }
  }

  /** The four status counts of `stats` never exceed its total, and reach
      it when every status is one of the four. */
  lemma StatsBound(data: seq<ColetaRow>)
    ensures CountSum(StatsOf(data)) <= StatsOf(data).total
    ensures (forall i :: 0 <= i < |data| ==> data[i].status in Statuses) ==>
              CountSum(StatsOf(data)) == StatsOf(data).total
  {
    TallyBound(data);
  }

  // ------------------------------------------------------------ presentation

  datatype Color = Success | Warning | Info | Error | Default

  /** `getStatusColor` */
  function StatusColor(status: string): (c: Color)
    ensures c == Default <==> status !in Statuses
    ensures c == Success <==> status == "concluida"
    ensures c == Warning <==> status == "em_andamento"
    ensures c == Info <==> status == "agendada"
    ensures c == Error <==> status == "cancelada"
  {
    if status == "concluida" then Success
    else if status == "em_andamento" then Warning
    else if status == "agendada" then Info
    else if status == "cancelada" then Error
    else Default
  }

  /** `s.replace(a, b)` with a one-character pattern: only the first
      occurrence is replaced. */
  function ReplaceFirst(s: string, a: char, b: char): (r: string)
    ensures |r| == |s|
    ensures forall i :: 0 <= i < |s| ==> r[i] == if s[i] == a && a !in s[..i] then b else s[i]
  {
    if s == [] then []
    else if s[0] == a then [b] + s[1..]
    else
      var rest := ReplaceFirst(s[1..], a, b);
      assert forall i :: 1 <= i < |s| ==> s[..i] == [s[0]] + s[1..][..i - 1];
      [s[0]] + rest
  }

  /** The status chip: the first underscore becomes a space, then upper case. */
  function ChipLabel(status: string): (chip: string)
    ensures |chip| == |status|
    ensures forall i :: 0 <= i < |status| ==>
              chip[i] == if status[i] == '_' && '_' !in status[..i] then ' ' else UpperChar(status[i])
  {
    Upper(ReplaceFirst(status, '_', ' '))
  }
}
