/** The three filter stages: the week of the due instant, the user's
    account / status / text criteria, and the `incluir` flag. */
module Filtros {
  import opened Tipos
  import opened Sequencias
  import opened Texto
  import opened Periodo

  /** `parseISO(i.vencimento)` lies in `p`. An unparseable text (`None`, an
      Invalid Date) compares false with both bounds and is left out. */
  predicate VenceEm(i: Item, p: Intervalo, parse: string -> Option<int>) {
    match parse(i.vencimento)
    case Some(t) => Contem(p, t)
    case None => false
  }

  function NaSemana(p: Intervalo, parse: string -> Option<int>): Item -> bool {
    i => VenceEm(i, p, parse)
  }

  /** `semanaItens`. */
  function SemanaItens(dados: seq<Item>, p: Intervalo, parse: string -> Option<int>): (r: seq<Item>)
    ensures Subsequencia(r, dados)
    ensures forall x :: x in r <==> x in dados && (parse(x.vencimento).Some? && p.inicio <= parse(x.vencimento).value <= p.fim)
    ensures forall x :: multiset(r)[x] == if VenceEm(x, p, parse) then multiset(dados)[x] else 0
  {
    Filtrar(dados, NaSemana(p, parse))
  }

  /** The window is closed at its end: an item due exactly at `fim` is kept,
      one due a millisecond later is dropped. */
  lemma SemanaFechadaNoFim(dados: seq<Item>, p: Intervalo, parse: string -> Option<int>, x: Item)
    requires x in dados && p.inicio <= p.fim
    ensures parse(x.vencimento) == Some(p.fim) ==> x in SemanaItens(dados, p, parse)
    ensures parse(x.vencimento) == Some(p.fim + 1) ==> x !in SemanaItens(dados, p, parse)
    ensures parse(x.vencimento) == Some(p.inicio) ==> x in SemanaItens(dados, p, parse)
    ensures parse(x.vencimento) == Some(p.inicio - 1) ==> x !in SemanaItens(dados, p, parse)
  {
  }

  const TODAS: string := "Todas"
  const TODOS: string := "Todos"

  /** The user's filter selection: an account label or `Todas`, a status
      name or `Todos`, and free search text. */
  datatype Criterios = Criterios(filtroConta: string, filtroStatus: string, busca: string)

  predicate PorConta(i: Item, c: Criterios) {
    c.filtroConta == TODAS || ChaveConta(i) == c.filtroConta
  }

  predicate PorStatus(i: Item, c: Criterios) {
    c.filtroStatus == TODOS || NomeStatus(i.status) == c.filtroStatus
  }

  /** The text searched: supplier, description and cost centre joined by a space. */
  function TextoDeBusca(i: Item): (r: string)
    ensures r == i.fornecedor + " " + i.descricao + " " + i.centroCusto
  {
    JuntarTres(i.fornecedor, i.descricao, i.centroCusto, " ");
    Juntar([i.fornecedor, i.descricao, i.centroCusto], " ")
  }

  predicate PorBusca(i: Item, c: Criterios) {
    ContemTrecho(Minusculas(TextoDeBusca(i)), Minusculas(c.busca))
  }

  predicate Atende(i: Item, c: Criterios) {
    PorConta(i, c) && PorStatus(i, c) && PorBusca(i, c)
  }

  function AtendeA(c: Criterios): Item -> bool {
    i => Atende(i, c)
  }

  /** `filtrados`. */
  function Filtrados(semana: seq<Item>, c: Criterios): (r: seq<Item>)
    ensures Subsequencia(r, semana)
    ensures forall x :: x in r <==> x in semana && PorConta(x, c) && PorStatus(x, c) && PorBusca(x, c)
    ensures forall x :: multiset(r)[x] == if Atende(x, c) then multiset(semana)[x] else 0
  {
    Filtrar(semana, AtendeA(c))
  }

  /** An empty search always matches. */
  lemma BuscaVaziaCasa(i: Item, c: Criterios)
    requires c.busca == ""
    ensures PorBusca(i, c)
  {
    assert Minusculas(c.busca) == [];
  }

  /** The case of the search text does not matter: two search texts that
      differ only in letter case match the same items. Lower-casing the
      search text is one such change. */
  lemma {:induction false} BuscaIgnoraCaixa(i: Item, c: Criterios, b: string)
    ensures MesmaCaixa(c.busca, b) ==> (PorBusca(i, c) <==> PorBusca(i, c.(busca := b)))
    ensures PorBusca(i, c) <==> PorBusca(i, c.(busca := Minusculas(c.busca)))
  {
    MesmaCaixaMinusculas(c.busca, b);
    MinusculasIdempotente(c.busca);
  }

  /** The case of the searched fields does not matter either: items whose
      supplier, description and cost centre differ only in letter case are
      matched alike. */
  lemma {:induction false} BuscaIgnoraCaixaDosCampos(i: Item, j: Item, c: Criterios)
    ensures (MesmaCaixa(i.fornecedor, j.fornecedor) && MesmaCaixa(i.descricao, j.descricao) &&
             MesmaCaixa(i.centroCusto, j.centroCusto)) ==> (PorBusca(i, c) <==> PorBusca(j, c))
  {
    if MesmaCaixa(i.fornecedor, j.fornecedor) && MesmaCaixa(i.descricao, j.descricao)
      && MesmaCaixa(i.centroCusto, j.centroCusto)
    {
      MinusculasDaBusca(i);
      MinusculasDaBusca(j);
      MesmaCaixaMinusculas(i.fornecedor, j.fornecedor);
      MesmaCaixaMinusculas(i.descricao, j.descricao);
      MesmaCaixaMinusculas(i.centroCusto, j.centroCusto);
    }
  }

  /** The lower-cased searched text, field by field. */
  lemma {:induction false} MinusculasDaBusca(i: Item)
    ensures Minusculas(TextoDeBusca(i)) ==
      Minusculas(i.fornecedor) + " " + Minusculas(i.descricao) + " " + Minusculas(i.centroCusto)
  {
    var f, d, k := i.fornecedor, i.descricao, i.centroCusto;
    assert Minusculas(" ") == " ";
    MinusculasConcat(f + " " + d + " ", k);
    MinusculasConcat(f + " " + d, " ");
    MinusculasConcat(f + " ", d);
    MinusculasConcat(f, " ");
  }

  /** With every criterion at its "all" value the week set passes unchanged. */
  lemma {:induction false} CriteriosNeutros(semana: seq<Item>)
    ensures Filtrados(semana, Criterios(TODAS, TODOS, "")) == semana
  {
    var c := Criterios(TODAS, TODOS, "");
    forall x | x in semana
      ensures AtendeA(c)(x)
    {
      BuscaVaziaCasa(x, c);
    }
    FiltrarTudo(semana, AtendeA(c));
  }

  predicate EstaIncluido(i: Item) {
    i.incluir
  }

  /** `incluidos`. */
  function Incluidos(filtrados: seq<Item>): (r: seq<Item>)
    ensures Subsequencia(r, filtrados)
    ensures forall x :: multiset(r)[x] == if x.incluir then multiset(filtrados)[x] else 0
  {
    Filtrar(filtrados, EstaIncluido)
  }
}
