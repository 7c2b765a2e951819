/** Sum-by-key groupings (`porBanco`, `porMetodo`, `porCentro`). A plain
    JavaScript object used as a dictionary and listed with `Object.entries`
    is an association list in insertion order; that is how a grouping is
    represented here. */
module Agrupamento {
  import opened Tipos
  import opened Sequencias
  import opened Somas

  datatype Grupo<K> = Grupo(chave: K, valor: real)

  function Chaves<K>(gs: seq<Grupo<K>>): (r: seq<K>)
    ensures |r| == |gs|
  {
    Mapear(gs, (g: Grupo<K>) => g.chave)
  }

  predicate Distintas<K(==,!new)>(ks: seq<K>) {
    forall i, j :: 0 <= i < j < |ks| ==> ks[i] != ks[j]
  }

  /** `map[k] || 0`: the value stored under `k`, or 0 when there is none. */
  function ValorDe<K(==,!new)>(gs: seq<Grupo<K>>, k: K): real
    decreases |gs|
  {
    if gs == [] then 0.0
    else if gs[0].chave == k then gs[0].valor
    else ValorDe(gs[1..], k)
  }

  function SomaGrupos<K>(gs: seq<Grupo<K>>): real
    decreases |gs|
  {
    if gs == [] then 0.0 else gs[0].valor + SomaGrupos(gs[1..])
  }

  /** `map[k] = (map[k] || 0) + v`. */
  function Acumular<K(==,!new)>(gs: seq<Grupo<K>>, k: K, v: real): (r: seq<Grupo<K>>)
    ensures Chaves(r) == if k in Chaves(gs) then Chaves(gs) else Chaves(gs) + [k]
    ensures forall k' :: ValorDe(r, k') == ValorDe(gs, k') + (if k' == k then v else 0.0)
    ensures SomaGrupos(r) == SomaGrupos(gs) + v
    decreases |gs|
  {
    if gs == [] then [Grupo(k, v)]
    else if gs[0].chave == k then
      var r := [Grupo(k, gs[0].valor + v)] + gs[1..];
      assert Chaves(gs)[0] == k;
      assert Chaves(r) == Chaves(gs);
      r
    else
      var resto := Acumular(gs[1..], k, v);
      assert Chaves(gs) == [gs[0].chave] + Chaves(gs[1..]);
      assert Chaves([gs[0]] + resto) == [gs[0].chave] + Chaves(resto);
      [gs[0]] + resto
  }

  /** `r` lists keys in the order they first appear in `ks`: whenever a key
      comes before another in `r`, it already occurs in `ks` before any
      occurrence of the other. */
  predicate EmOrdemDeAparicao<K(==)>(ks: seq<K>, r: seq<K>) {
    forall i, j, q :: 0 <= i < j < |r| && 0 <= q < |ks| && ks[q] == r[j] ==> r[i] in ks[..q]
  }

  /** The keys of `ks` in order of first appearance, each once. */
  function PrimeirasOcorrencias<K(==,!new)>(ks: seq<K>): (r: seq<K>)
    ensures Distintas(r)
    ensures forall k :: k in r <==> k in ks
    ensures EmOrdemDeAparicao(ks, r)
    decreases |ks|
  {
    if ks == [] then []
    else
      var anteriores := PrimeirasOcorrencias(ks[..|ks| - 1]);
      assert ks == ks[..|ks| - 1] + [ks[|ks| - 1]];
      PrimeirasOcorrenciasPasso(ks, anteriores);
      if ks[|ks| - 1] in anteriores then anteriores else anteriores + [ks[|ks| - 1]]
  }

  /** One step of `PrimeirasOcorrencias`: the first-seen order of all keys
      but the last extends to all keys, whether the last key is new or not. */
  lemma {:induction false} PrimeirasOcorrenciasPasso<K(!new)>(ks: seq<K>, a: seq<K>)
    requires ks != []
    requires forall k :: k in a <==> k in ks[..|ks| - 1]
    requires EmOrdemDeAparicao(ks[..|ks| - 1], a)
    ensures var x := ks[|ks| - 1];
      EmOrdemDeAparicao(ks, if x in a then a else a + [x])
  {
    var p, x := ks[..|ks| - 1], ks[|ks| - 1];
    var r := if x in a then a else a + [x];
    forall i, j, q | 0 <= i < j < |r| && 0 <= q < |ks| && ks[q] == r[j]
      ensures r[i] in ks[..q]
    {
      if q < |p| {
        assert ks[q] == p[q];
        if j < |a| {
          assert r[i] == a[i] && r[j] == a[j] && p[q] == a[j];
          assert a[i] in p[..q];
          assert ks[..q] == p[..q];
        } else {
          assert false;
        }
      } else {
        assert ks[..q] == p;
        assert r[i] == a[i] && a[i] in a;
      }
    }
  }

  /** `r` is the grouping of `s` by `chave`: the keys in first-seen order,
      each with the sum over its items, adding up to the total. */
  ghost predicate Agrupa<K(!new)>(s: seq<Item>, chave: Item -> K, r: seq<Grupo<K>>) {
    && Chaves(r) == PrimeirasOcorrencias(Mapear(s, chave))
    && (forall k :: ValorDe(r, k) == SomaSe(s, ComChave(chave, k)))
    && SomaGrupos(r) == Total(s)
  }

  /** The grouping loop of `porBanco` / `porMetodo` / `porCentro`, keyed by `chave`. */
  function Agrupar<K(==,!new)>(s: seq<Item>, chave: Item -> K): (r: seq<Grupo<K>>)
    ensures Chaves(r) == PrimeirasOcorrencias(Mapear(s, chave))
    ensures forall k :: ValorDe(r, k) == SomaSe(s, ComChave(chave, k))
    ensures SomaGrupos(r) == Total(s)
    decreases |s|
  {
    if s == [] then
      assert Agrupa(s, chave, []);
      []
    else
      var g := Agrupar(s[..|s| - 1], chave);
      assert Agrupa(s[..|s| - 1], chave, g);
      AcumularAgrupa(s, chave, g);
      Acumular(g, chave(s[|s| - 1]), s[|s| - 1].valor)
  }

  /** One step of the loop extends the grouping of all items but the last to
      the grouping of all items. */
  lemma {:induction false} AcumularAgrupa<K(!new)>(s: seq<Item>, chave: Item -> K, g: seq<Grupo<K>>)
    requires s != [] && Agrupa(s[..|s| - 1], chave, g)
    ensures Agrupa(s, chave, Acumular(g, chave(s[|s| - 1]), s[|s| - 1].valor))
  {
    var anteriores, x := s[..|s| - 1], s[|s| - 1];
    var r := Acumular(g, chave(x), x.valor);
    assert s == anteriores + [x];
    MapearAcrescentar(anteriores, x, chave);
    assert PrimeirasOcorrencias(Mapear(s, chave)) ==
      var p := PrimeirasOcorrencias(Mapear(anteriores, chave));
      if chave(x) in p then p else p + [chave(x)];
    forall k
      ensures ValorDe(r, k) == SomaSe(s, ComChave(chave, k))
    {
      assert SomaSe(s, ComChave(chave, k)) == SomaSe(anteriores, ComChave(chave, k)) + (if chave(x) == k then x.valor else 0.0);
    }
    assert Total(s) == Total(anteriores) + x.valor;
  }

  /** Each key appears once, exactly the keys of the items appear, and each
      key's value is the sum over the items carrying it. */
  lemma {:induction false} AgruparParticiona<K(!new)>(s: seq<Item>, chave: Item -> K)
    ensures Distintas(Chaves(Agrupar(s, chave)))
    ensures forall x :: x in s ==> chave(x) in Chaves(Agrupar(s, chave))
    ensures forall k :: k in Chaves(Agrupar(s, chave)) ==> exists x :: x in s && chave(x) == k
    ensures forall g :: g in Agrupar(s, chave) ==> g.valor == SomaSe(s, ComChave(chave, g.chave))
  {
    var r := Agrupar(s, chave);
    var ks := Mapear(s, chave);
    forall x | x in s
      ensures chave(x) in Chaves(r)
    {
      var i :| 0 <= i < |s| && s[i] == x;
      assert ks[i] == chave(x);
    }
    forall k | k in Chaves(r)
      ensures exists x :: x in s && chave(x) == k
    {
      var i :| 0 <= i < |ks| && ks[i] == k;
      assert s[i] in s;
    }
    forall g | g in r
      ensures g.valor == SomaSe(s, ComChave(chave, g.chave))
    {
      var i :| 0 <= i < |r| && r[i] == g;
      ValorDeDistintas(r, i);
    }
  }

  /** With distinct keys the lookup finds the group that holds the key. */
  lemma {:induction false} ValorDeDistintas<K(!new)>(gs: seq<Grupo<K>>, i: int)
    requires Distintas(Chaves(gs)) && 0 <= i < |gs|
    ensures ValorDe(gs, gs[i].chave) == gs[i].valor
    decreases |gs|
  {
    if i > 0 {
      assert Chaves(gs)[0] != Chaves(gs)[i];
      assert Chaves(gs[1..]) == Chaves(gs)[1..];
      ValorDeDistintas(gs[1..], i - 1);
    }
  }

  lemma {:induction false} ValorDeAusente<K(!new)>(gs: seq<Grupo<K>>, k: K)
    requires k !in Chaves(gs)
    ensures ValorDe(gs, k) == 0.0
    decreases |gs|
  {
    if gs != [] {
      assert Chaves(gs)[0] == gs[0].chave;
      assert Chaves(gs[1..]) == Chaves(gs)[1..];
      ValorDeAusente(gs[1..], k);
    }
  }

  /** `m` holds, as a map, the keys and values of the grouping `gs`. */
  ghost predicate Resume<K(!new)>(gs: seq<Grupo<K>>, m: map<K, real>) {
    && (forall k :: k in m <==> k in Chaves(gs))
    && (forall k :: k in m ==> m[k] == ValorDe(gs, k))
  }

  /** `acc[k] = (acc[k] || 0) + v` on a map. */
  function SomarEm<K>(m: map<K, real>, k: K, v: real): map<K, real> {
    m[k := (if k in m then m[k] else 0.0) + v]
  }

  /** The inline `reduce` of the account card: the same loop, into a map. */
  function SomaPorChave<K(==,!new)>(s: seq<Item>, chave: Item -> K): (m: map<K, real>)
    ensures forall k :: k in m <==> k in Chaves(Agrupar(s, chave))
    ensures forall k :: k in m ==> m[k] == ValorDe(Agrupar(s, chave), k)
    decreases |s|
  {
    if s == [] then map[]
    else
      var anteriores, x := s[..|s| - 1], s[|s| - 1];
      var m := SomaPorChave(anteriores, chave);
      var g := Agrupar(anteriores, chave);
      assert Resume(g, m);
      assert Agrupar(s, chave) == Acumular(g, chave(x), x.valor);
      SomarEmResume(g, m, chave(x), x.valor);
      SomarEm(m, chave(x), x.valor)
  }

  /** Adding `v` under `k` in the map mirrors the same step on the grouping. */
  lemma {:induction false} SomarEmResume<K(!new)>(g: seq<Grupo<K>>, m: map<K, real>, k: K, v: real)
    requires Resume(g, m)
    ensures Resume(Acumular(g, k, v), SomarEm(m, k, v))
  {
    var g' := Acumular(g, k, v);
    var r := SomarEm(m, k, v);
    if k !in m {
      ValorDeAusente(g, k);
    }
    forall j
      ensures j in r <==> j in Chaves(g')
    {
      assert j in Chaves(g') <==> j in Chaves(g) || j == k;
    }
    forall j | j in r
      ensures r[j] == ValorDe(g', j)
    {
      assert ValorDe(g', j) == ValorDe(g, j) + (if j == k then v else 0.0);
    }
  }

  /** Every grouping of one item set has the same total, the set's total. */
  lemma {:induction false} TotaisIguais(s: seq<Item>)
    ensures SomaGrupos(Agrupar(s, ChaveConta)) == Total(s)
    ensures SomaGrupos(Agrupar(s, MetodoDe)) == Total(s)
    ensures SomaGrupos(Agrupar(s, CentroDe)) == Total(s)
  {
  }
}
