/** `mover`: swap an item with its neighbour above or below in the master
    list, clamped at the ends. */
module Ordenacao {
  import opened Tipos
  import opened Somas

  datatype Direcao = Cima | Baixo

  /** `findIndex(i => i.id === id)`: the first position holding `id`, or -1. */
  function IndiceDe(s: seq<Item>, id: string): (r: int)
    ensures -1 <= r < |s|
    ensures r == -1 <==> forall j :: 0 <= j < |s| ==> s[j].id != id
    ensures r >= 0 ==> s[r].id == id && forall j :: 0 <= j < r ==> s[j].id != id
    decreases |s|
  {
    if s == [] then -1
    else if s[0].id == id then 0
    else
      var r := IndiceDe(s[1..], id);
      if r == -1 then -1 else r + 1
  }

  /** `alvo`: `Math.max(0, idx - 1)` upwards, `Math.min(n - 1, idx + 1)` downwards. */
  function Alvo(idx: int, n: int, dir: Direcao): (r: int)
    ensures dir == Cima ==> r >= 0 && r >= idx - 1 && (r == 0 || r == idx - 1)
    ensures dir == Baixo ==> r <= n - 1 && r <= idx + 1 && (r == n - 1 || r == idx + 1)
    ensures 0 <= idx < n ==> 0 <= r < n && (r == idx || r == idx - 1 || r == idx + 1)
  {
    if dir == Cima then (if idx - 1 < 0 then 0 else idx - 1)
    else (if idx + 1 > n - 1 then n - 1 else idx + 1)
  }

  function Trocar(s: seq<Item>, i: int, j: int): (r: seq<Item>)
    requires 0 <= i < |s| && 0 <= j < |s|
    ensures |r| == |s| && multiset(r) == multiset(s)
    ensures r[i] == s[j] && r[j] == s[i]
    ensures forall k :: 0 <= k < |s| && k != i && k != j ==> r[k] == s[k]
  {
    s[i := s[j]][j := s[i]]
  }

  function Mover(s: seq<Item>, id: string, dir: Direcao): (r: seq<Item>)
    ensures |r| == |s| && multiset(r) == multiset(s)
    ensures IndiceDe(s, id) == -1 ==> r == s
    ensures IndiceDe(s, id) >= 0 ==>
      var idx := IndiceDe(s, id);
      var alvo := Alvo(idx, |s|, dir);
      && 0 <= alvo < |s|
      && (if dir == Cima then alvo == idx - 1 || (idx == 0 && alvo == 0) else alvo == idx + 1 || (idx == |s| - 1 && alvo == idx))
      && r[alvo] == s[idx] && r[idx] == s[alvo]
      && forall k :: 0 <= k < |s| && k != idx && k != alvo ==> r[k] == s[k]
  {
    var idx := IndiceDe(s, id);
    if idx == -1 then s
    else Trocar(s, idx, Alvo(idx, |s|, dir))
  }

  /** Moving the first item up, or the (only) last item with that id down,
      returns the list as it was. */
  lemma MoverNasPontas(s: seq<Item>, id: string)
    ensures |s| > 0 && s[0].id == id ==> Mover(s, id, Cima) == s
    ensures IndiceDe(s, id) == |s| - 1 ==> Mover(s, id, Baixo) == s
  {
  }

  /** Up then down puts the list back, whenever the item was not already first. */
  lemma {:induction false} MoverIdaEVolta(s: seq<Item>, id: string)
    requires IndiceDe(s, id) > 0
    ensures Mover(Mover(s, id, Cima), id, Baixo) == s
  {
    var idx := IndiceDe(s, id);
    var r := Trocar(s, idx, idx - 1);
    assert Mover(s, id, Cima) == r;
    assert forall j :: 0 <= j < idx - 1 ==> r[j] == s[j];
    assert IndiceDe(r, id) == idx - 1;
    assert Mover(r, id, Baixo) == Trocar(r, idx - 1, idx);
    TrocarDuasVezes(s, idx, idx - 1);
  }

  /** Swapping the same two positions twice restores the list. */
  lemma {:induction false} TrocarDuasVezes(s: seq<Item>, i: int, j: int)
    requires 0 <= i < |s| && 0 <= j < |s|
    ensures Trocar(Trocar(s, i, j), j, i) == s
  {
    var t := Trocar(Trocar(s, i, j), j, i);
    assert forall k :: 0 <= k < |s| ==> t[k] == s[k];
  }

  /** A move never changes a sum. */
  lemma {:induction false} MoverPreservaSomas(s: seq<Item>, id: string, dir: Direcao, p: Item -> bool)
    ensures SomaSe(Mover(s, id, dir), p) == SomaSe(s, p)
  {
    SomaSePermutacao(Mover(s, id, dir), s, p);
  }
}
