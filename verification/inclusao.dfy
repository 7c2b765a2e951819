/** The inclusion checkbox: `prev.map(x => x.id === id ? {...x, incluir: v} : x)`. */
module Inclusao {
  import opened Tipos
  import opened Sequencias

  function Marcar(x: Item, id: string, v: bool): Item {
    if x.id == id then x.(incluir := v) else x
  }

  /** Sets `incluir` to `v` on the items carrying `id`; nothing else moves or
      changes. */
  function Alternar(s: seq<Item>, id: string, v: bool): (r: seq<Item>)
    ensures |r| == |s|
    ensures forall j :: 0 <= j < |s| ==> r[j].(incluir := s[j].incluir) == s[j]
    ensures forall j :: 0 <= j < |s| ==> r[j].incluir == if s[j].id == id then v else s[j].incluir
    decreases |s|
  {
    if s == [] then []
    else Alternar(s[..|s| - 1], id, v) + [Marcar(s[|s| - 1], id, v)]
  }

  /** The last toggle wins. */
  lemma AlternarDuasVezes(s: seq<Item>, id: string, v: bool, w: bool)
    ensures Alternar(Alternar(s, id, v), id, w) == Alternar(s, id, w)
  {
    var a := Alternar(Alternar(s, id, v), id, w);
    var b := Alternar(s, id, w);
    forall j | 0 <= j < |s|
      ensures a[j] == b[j]
    {
    }
  }

  /** Toggling to the value the items already have changes nothing. */
  lemma AlternarSemEfeito(s: seq<Item>, id: string, v: bool)
    requires forall j :: 0 <= j < |s| && s[j].id == id ==> s[j].incluir == v
    ensures Alternar(s, id, v) == s
  {
    var a := Alternar(s, id, v);
    forall j | 0 <= j < |s|
      ensures a[j] == s[j]
    {
    }
  }

  lemma {:induction false} AlternarUltimo(a: seq<Item>, y: Item, id: string, v: bool)
    ensures Alternar(a + [y], id, v) == Alternar(a, id, v) + [Marcar(y, id, v)]
  {
    assert (a + [y])[..|a|] == a;
  }

  /** A filter that does not look at `incluir` commutes with the toggle. */
  lemma {:induction false} FiltrarAlternar(s: seq<Item>, f: Item -> bool, id: string, v: bool)
    requires forall x: Item :: f(x.(incluir := v)) == f(x)
    ensures Filtrar(Alternar(s, id, v), f) == Alternar(Filtrar(s, f), id, v)
    decreases |s|
  {
    if s != [] {
      var anteriores := s[..|s| - 1];
      var x := s[|s| - 1];
      var y := Marcar(x, id, v);
      assert s == anteriores + [x];
      FiltrarAlternar(anteriores, f, id, v);
      AlternarUltimo(anteriores, x, id, v);
      FiltrarUltimo(Alternar(anteriores, id, v), y, f);
      FiltrarUltimo(anteriores, x, f);
      assert f(y) == f(x);
      if f(x) {
        AlternarUltimo(Filtrar(anteriores, f), x, id, v);
      }
    }
  }
}
