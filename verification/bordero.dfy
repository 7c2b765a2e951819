/** The whole schedule as a pure function of one state snapshot: the week
    window, the filter stages, the totals, the three groupings and the
    balance projection, recomputed from scratch on every change. */
module Bordero {
  import opened Tipos
  import opened Sequencias
  import opened Periodo
  import opened Somas
  import opened Filtros
  import opened Agrupamento
  import opened Projecao
  import opened Ordenacao
  import opened Inclusao

  /** The session state: reference week start, master list, filter selection. */
  datatype Estado = Estado(ref: int, dados: seq<Item>, criterios: Criterios)

  datatype Painel = Painel(
    periodo: Intervalo,
    semana: seq<Item>,
    filtrados: seq<Item>,
    incluidos: seq<Item>,
    total: real,
    porBanco: seq<Grupo<string>>,
    porMetodo: seq<Grupo<Metodo>>,
    porCentro: seq<Grupo<string>>,
    saldo: map<string, Saldo>)

  /** An item the three stages keep: due in the week, meeting the criteria,
      with `incluir` set. */
  predicate Selecionado(x: Item, st: Estado, parse: string -> Option<int>) {
    VenceEm(x, PeriodoDe(st.ref), parse) && Atende(x, st.criterios) && x.incluir
  }

  /** The included items of a state: week, then criteria, then `incluir`. */
  function IncluidosDe(st: Estado, parse: string -> Option<int>): (r: seq<Item>)
    ensures Subsequencia(r, st.dados)
    ensures forall x :: x in r <==>
      && x in st.dados
      && VenceEm(x, PeriodoDe(st.ref), parse)
      && Atende(x, st.criterios)
      && x.incluir
    ensures forall x :: multiset(r)[x] == if Selecionado(x, st, parse) then multiset(st.dados)[x] else 0
  {
    var semana := SemanaItens(st.dados, PeriodoDe(st.ref), parse);
    var filtrados := Filtrados(semana, st.criterios);
    var r := Incluidos(filtrados);
    SubsequenciaTransitiva(r, filtrados, semana);
    SubsequenciaTransitiva(r, semana, st.dados);
    assert forall x :: x in r <==> x in filtrados && x.incluir;
    r
  }

  /** Everything the screen shows for one state: the week, the stages, the
      total of the included values, the three groupings with each key's sum
      and the projected balance of each registered or charged account. */
  function Calcular(st: Estado, contas: seq<Conta>, parse: string -> Option<int>): (p: Painel)
    ensures p.periodo == PeriodoDe(st.ref)
    ensures p.semana == SemanaItens(st.dados, p.periodo, parse)
    ensures p.filtrados == Filtrados(p.semana, st.criterios)
    ensures p.incluidos == IncluidosDe(st, parse)
    ensures p.total == Total(p.incluidos)
    ensures SomaGrupos(p.porBanco) == p.total
    ensures SomaGrupos(p.porMetodo) == p.total
    ensures SomaGrupos(p.porCentro) == p.total
    ensures Chaves(p.porBanco) == PrimeirasOcorrencias(Mapear(p.incluidos, ChaveConta))
    ensures Chaves(p.porMetodo) == PrimeirasOcorrencias(Mapear(p.incluidos, MetodoDe))
    ensures Chaves(p.porCentro) == PrimeirasOcorrencias(Mapear(p.incluidos, CentroDe))
    ensures forall k :: ValorDe(p.porBanco, k) == SomaSe(p.incluidos, ComChave(ChaveConta, k))
    ensures forall m :: ValorDe(p.porMetodo, m) == SomaSe(p.incluidos, ComChave(MetodoDe, m))
    ensures forall c :: ValorDe(p.porCentro, c) == SomaSe(p.incluidos, ComChave(CentroDe, c))
    ensures forall k :: k in p.saldo <==> SaldoRegistrado(contas, k).Some? || k in Mapear(p.incluidos, ChaveConta)
    ensures forall k :: k in p.saldo ==> p.saldo[k].saldoInicial == SaldoRegistrado(contas, k).GetOr(0.0)
    ensures forall k :: k in p.saldo ==> p.saldo[k].saidas == SomaSe(p.incluidos, ComChave(ChaveConta, k))
    ensures forall k :: k in p.saldo ==> p.saldo[k].saldoFinal == p.saldo[k].saldoInicial - SomaSe(p.incluidos, ComChave(ChaveConta, k))
    ensures p.saldo == SaldoProjetado(contas, p.incluidos)
  {
    var periodo := PeriodoDe(st.ref);
    var semana := SemanaItens(st.dados, periodo, parse);
    var filtrados := Filtrados(semana, st.criterios);
    var incluidos := Incluidos(filtrados);
    Painel(periodo, semana, filtrados, incluidos, Total(incluidos),
      Agrupar(incluidos, ChaveConta), Agrupar(incluidos, MetodoDe), Agrupar(incluidos, CentroDe),
      SaldoProjetado(contas, incluidos))
  }

  /** `setRef(addWeeks(ref, k))`: the window moves by whole weeks. */
  function Navegar(st: Estado, k: int): (r: Estado)
    ensures PeriodoDe(r.ref).inicio == PeriodoDe(st.ref).inicio + k * MS_POR_SEMANA
    ensures PeriodoDe(r.ref).fim == PeriodoDe(st.ref).fim + k * MS_POR_SEMANA
    ensures r.dados == st.dados && r.criterios == st.criterios
  {
    st.(ref := AdicionarSemanas(st.ref, k))
  }

  /** With nothing included every grouping is empty, the total is zero and
      every account keeps its opening balance. */
  lemma PainelVazio(st: Estado, contas: seq<Conta>, parse: string -> Option<int>)
    requires IncluidosDe(st, parse) == []
    ensures var p := Calcular(st, contas, parse);
      && p.total == 0.0 && p.porBanco == [] && p.porMetodo == [] && p.porCentro == []
      && (forall k :: k in p.saldo <==> SaldoRegistrado(contas, k).Some?)
      && (forall k :: k in p.saldo ==> p.saldo[k].saidas == 0.0 && p.saldo[k].saldoFinal == p.saldo[k].saldoInicial)
  {
  }

  /** Reordering the master list changes no total, no grouping value and no
      projected balance. */
  lemma {:induction false} MoverNaoAlteraAgregados(st: Estado, contas: seq<Conta>, parse: string -> Option<int>, id: string, dir: Direcao)
    ensures var antes := Calcular(st, contas, parse);
      var depois := Calcular(st.(dados := Mover(st.dados, id, dir)), contas, parse);
      && depois.total == antes.total
      && multiset(depois.incluidos) == multiset(antes.incluidos)
      && depois.saldo == antes.saldo
      && (forall k :: ValorDe(depois.porBanco, k) == ValorDe(antes.porBanco, k))
      && (forall m :: ValorDe(depois.porMetodo, m) == ValorDe(antes.porMetodo, m))
      && (forall c :: ValorDe(depois.porCentro, c) == ValorDe(antes.porCentro, c))
  {
    var a := IncluidosDe(st, parse);
    var b := IncluidosDe(st.(dados := Mover(st.dados, id, dir)), parse);
    MoverMantemIncluidos(st, parse, id, dir);
    SomaSePermutacao(a, b, Sempre);
    AgruparPorMultiset(a, b, ChaveConta);
    AgruparPorMultiset(a, b, MetodoDe);
    AgruparPorMultiset(a, b, CentroDe);
    ProjecaoPorMultiset(contas, a, b);
  }

  /** After a move the same items are included, possibly in another order. */
  lemma {:induction false} MoverMantemIncluidos(st: Estado, parse: string -> Option<int>, id: string, dir: Direcao)
    ensures multiset(IncluidosDe(st.(dados := Mover(st.dados, id, dir)), parse)) == multiset(IncluidosDe(st, parse))
  {
    var periodo := PeriodoDe(st.ref);
    var s1 := SemanaItens(st.dados, periodo, parse);
    var s2 := SemanaItens(Mover(st.dados, id, dir), periodo, parse);
    FiltrarPorMultiset(Mover(st.dados, id, dir), st.dados, NaSemana(periodo, parse));
    FiltrarPorMultiset(s2, s1, AtendeA(st.criterios));
    var f1 := Filtrados(s1, st.criterios);
    var f2 := Filtrados(s2, st.criterios);
    FiltrarPorMultiset(f2, f1, EstaIncluido);
  }

  /** A grouping's values depend only on which items are grouped. */
  lemma {:induction false} AgruparPorMultiset<K(!new)>(a: seq<Item>, b: seq<Item>, chave: Item -> K)
    requires multiset(a) == multiset(b)
    ensures forall k :: ValorDe(Agrupar(a, chave), k) == ValorDe(Agrupar(b, chave), k)
  {
    forall k
      ensures SomaSe(a, ComChave(chave, k)) == SomaSe(b, ComChave(chave, k))
    {
      SomaSePermutacao(a, b, ComChave(chave, k));
    }
  }

  /** The projection depends only on which items are included, not on their order. */
  lemma {:induction false} ProjecaoPorMultiset(contas: seq<Conta>, a: seq<Item>, b: seq<Item>)
    requires multiset(a) == multiset(b)
    ensures SaldoProjetado(contas, a) == SaldoProjetado(contas, b)
  {
    var ma := SaldoProjetado(contas, a);
    var mb := SaldoProjetado(contas, b);
    forall k
      ensures k in Mapear(a, ChaveConta) <==> k in Mapear(b, ChaveConta)
    {
      ChavePorMultiset(a, b, k);
      ChavePorMultiset(b, a, k);
    }
    assert ma.Keys == mb.Keys;
    forall k | k in ma
      ensures ma[k] == mb[k]
    {
      SomaSePermutacao(a, b, ComChave(ChaveConta, k));
    }
  }

  /** An account label charged by some item of `a` is charged by some item of
      any reordering of `a`. */
  lemma {:induction false} ChavePorMultiset(a: seq<Item>, b: seq<Item>, k: string)
    requires multiset(a) == multiset(b)
    ensures k in Mapear(a, ChaveConta) ==> k in Mapear(b, ChaveConta)
  {
    if k in Mapear(a, ChaveConta) {
      var i :| 0 <= i < |a| && Mapear(a, ChaveConta)[i] == k;
      assert a[i] in multiset(b);
      var j :| 0 <= j < |b| && b[j] == a[i];
      assert Mapear(b, ChaveConta)[j] == k;
    }
  }

  /** A toggle reaches the included set exactly through the toggled items:
      the filters before it do not look at `incluir`. */
  lemma AlternarComutaComFiltros(st: Estado, parse: string -> Option<int>, id: string, v: bool)
    ensures var periodo := PeriodoDe(st.ref);
      Filtrados(SemanaItens(Alternar(st.dados, id, v), periodo, parse), st.criterios)
      == Alternar(Filtrados(SemanaItens(st.dados, periodo, parse), st.criterios), id, v)
  {
    var periodo := PeriodoDe(st.ref);
    var semana := SemanaItens(st.dados, periodo, parse);
    forall x: Item
      ensures NaSemana(periodo, parse)(x.(incluir := v)) == NaSemana(periodo, parse)(x)
      ensures AtendeA(st.criterios)(x.(incluir := v)) == AtendeA(st.criterios)(x)
    {
      var y := x.(incluir := v);
      assert y.vencimento == x.vencimento && y.status == x.status;
      assert ChaveConta(y) == ChaveConta(x);
      assert TextoDeBusca(y) == TextoDeBusca(x);
    }
    FiltrarAlternar(st.dados, NaSemana(periodo, parse), id, v);
    assert SemanaItens(Alternar(st.dados, id, v), periodo, parse) == Alternar(semana, id, v);
    FiltrarAlternar(semana, AtendeA(st.criterios), id, v);
  }
}

/** A worked week: items due on a Monday, the Wednesday after and the
    following Monday, only the first one included. */
module Cenario {
  import opened Tipos
  import opened Periodo
  import opened Filtros
  import opened Sequencias
  import opened Somas
  import opened Projecao
  import opened Bordero

  /** Monday 2025-01-06 00:00, local time. */
  const SEGUNDA: int := 20094 * MS_POR_DIA
  const DEZ_HORAS: int := 10 * 3_600_000

  function Analisar(s: string): Option<int> {
    if s == "2025-01-06T10:00:00" then Some(SEGUNDA + DEZ_HORAS)
    else if s == "2025-01-08T10:00:00" then Some(SEGUNDA + 2 * MS_POR_DIA + DEZ_HORAS)
    else if s == "2025-01-13T10:00:00" then Some(SEGUNDA + 7 * MS_POR_DIA + DEZ_HORAS)
    else None
  }

  const ITEM1: Item := Item("1", "Fornecedor A", "Servi\U{00E7}os de limpeza", "Manuten\U{00E7}\U{00E3}o", "Ita\U{00FA}", "Operacional", PIX, "2025-01-06T10:00:00", 3200.0, "BRL", 1, Aprovado, true)
  const ITEM2: Item := Item("2", "Fornecedor B", "Material did\U{00E1}tico", "Educa\U{00E7}\U{00E3}o", "Bradesco", "Projetos", TED, "2025-01-08T10:00:00", 8200.0, "BRL", 2, Pendente, false)
  const ITEM3: Item := Item("3", "Concession\U{00E1}ria X", "Energia el\U{00E9}trica", "Utilidades", "Ita\U{00FA}", "Operacional", Boleto, "2025-01-13T10:00:00", 5400.0, "BRL", 1, Aprovado, false)

  const PERIODO: Intervalo := Intervalo(SEGUNDA, SEGUNDA + MS_POR_SEMANA - 1)

  lemma VencimentosDoCenario()
    ensures VenceEm(ITEM1, PERIODO, Analisar)
    ensures VenceEm(ITEM2, PERIODO, Analisar)
    ensures !VenceEm(ITEM3, PERIODO, Analisar)
  {
    assert Analisar(ITEM1.vencimento) == Some(SEGUNDA + DEZ_HORAS);
    assert Analisar(ITEM2.vencimento) == Some(SEGUNDA + 2 * MS_POR_DIA + DEZ_HORAS) by {
      assert ITEM2.vencimento != "2025-01-06T10:00:00" by {
        assert ITEM2.vencimento[9] != "2025-01-06T10:00:00"[9];
      }
    }
    assert Analisar(ITEM3.vencimento) == Some(SEGUNDA + 7 * MS_POR_DIA + DEZ_HORAS) by {
      assert ITEM3.vencimento[8] != "2025-01-06T10:00:00"[8];
      assert ITEM3.vencimento[8] != "2025-01-08T10:00:00"[8];
    }
  }

  lemma SemanaDoCenario()
    ensures SemanaItens([ITEM1, ITEM2, ITEM3], PERIODO, Analisar) == [ITEM1, ITEM2]
  {
    VencimentosDoCenario();
    var f := NaSemana(PERIODO, Analisar);
    var d := [ITEM1, ITEM2, ITEM3];
    assert d[..2] == [ITEM1, ITEM2];
    assert d[..2][..1] == [ITEM1];
    assert [ITEM1][..0] == [];
    assert Filtrar([ITEM1], f) == [ITEM1];
    assert Filtrar([ITEM1, ITEM2], f) == [ITEM1, ITEM2];
  }

  lemma IncluidosDoCenario()
    ensures Incluidos([ITEM1, ITEM2]) == [ITEM1]
  {
    assert [ITEM1, ITEM2][..1] == [ITEM1];
    assert [ITEM1][..0] == [];
    assert !EstaIncluido(ITEM2) && EstaIncluido(ITEM1);
    assert Filtrar([ITEM1], EstaIncluido) == [ITEM1];
  }

  lemma SaldoDoCenario()
    ensures SaldoProjetado(CONTAS, [ITEM1])[RotuloConta("Ita\U{00FA}", "Operacional")] == Saldo(25000.0, 3200.0, 21800.0)
    ensures Total([ITEM1]) == 3200.0
  {
    var k := RotuloConta("Ita\U{00FA}", "Operacional");
    assert k == ChaveConta(ITEM1);
    assert CONTAS[..2][..1] == [CONTAS[0]];
    assert SaldoRegistrado(CONTAS, k) == Some(25000.0) by {
      assert ChaveRegistro(CONTAS[2]) != k by {
        assert ChaveRegistro(CONTAS[2])[0] != k[0];
      }
      assert ChaveRegistro(CONTAS[1]) != k by {
        assert ChaveRegistro(CONTAS[1])[0] != k[0];
      }
      assert CONTAS[..2] == [CONTAS[0], CONTAS[1]];
    }
    SomaSeUnitaria(ITEM1, ComChave(ChaveConta, k));
    SomaSeUnitaria(ITEM1, Sempre);
  }

  lemma PeriodoDoCenario()
    ensures PeriodoDe(SEGUNDA) == PERIODO
  {
  }

  lemma SemanaComUmItemIncluido()
    ensures var st := Estado(SEGUNDA, [ITEM1, ITEM2, ITEM3], Criterios(TODAS, TODOS, ""));
      var p := Calcular(st, CONTAS, Analisar);
      && p.semana == [ITEM1, ITEM2]
      && p.incluidos == [ITEM1]
      && p.total == 3200.0
      && p.saldo[RotuloConta("Ita\U{00FA}", "Operacional")] == Saldo(25000.0, 3200.0, 21800.0)
  {
    var st := Estado(SEGUNDA, [ITEM1, ITEM2, ITEM3], Criterios(TODAS, TODOS, ""));
    var p := Calcular(st, CONTAS, Analisar);
    PeriodoDoCenario();
    SemanaDoCenario();
    assert p.semana == [ITEM1, ITEM2];
    CriteriosNeutros([ITEM1, ITEM2]);
    assert p.filtrados == [ITEM1, ITEM2];
    IncluidosDoCenario();
    assert p.incluidos == [ITEM1];
    SaldoDoCenario();
    assert p.saldo == SaldoProjetado(CONTAS, [ITEM1]);
    assert p.total == 3200.0;
  }
}
