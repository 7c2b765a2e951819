/** `saldoProjetado`: each account's opening balance less the outflow of the
    included items charged to it. */
module Projecao {
  import opened Tipos
  import opened Sequencias
  import opened Somas

  datatype Saldo = Saldo(saldoInicial: real, saidas: real, saldoFinal: real)

  function ChaveRegistro(c: Conta): string {
    RotuloConta(c.banco, c.conta)
  }

  /** The opening balance the registry gives `k`; a later entry with the same
      label overwrites an earlier one, as the assignment loop does. */
  function SaldoRegistrado(contas: seq<Conta>, k: string): Option<real>
    decreases |contas|
  {
    if contas == [] then None
    else if ChaveRegistro(contas[|contas| - 1]) == k then Some(contas[|contas| - 1].saldoInicial)
    else SaldoRegistrado(contas[..|contas| - 1], k)
  }

  /** The seeding loop: one record per registered account, nothing spent yet. */
  function Semear(contas: seq<Conta>): (m: map<string, Saldo>)
    ensures forall k :: k in m <==> SaldoRegistrado(contas, k).Some?
    ensures forall k :: k in m ==> m[k] == Saldo(SaldoRegistrado(contas, k).value, 0.0, SaldoRegistrado(contas, k).value)
    decreases |contas|
  {
    if contas == [] then map[]
    else
      var c := contas[|contas| - 1];
      Semear(contas[..|contas| - 1])[ChaveRegistro(c) := Saldo(c.saldoInicial, 0.0, c.saldoInicial)]
  }

  /** Every record closes at its opening balance less its outflow. */
  predicate Coerente(m: map<string, Saldo>) {
    forall k :: k in m ==> m[k].saldoFinal == m[k].saldoInicial - m[k].saidas
  }

  /** One step of the outflow loop: create a zero record for an unregistered
      account, add the value to its outflow, recompute the closing balance.
      Only the item's account changes, and coherent records stay coherent. */
  function Lancar(m: map<string, Saldo>, i: Item): (r: map<string, Saldo>)
    ensures r.Keys == m.Keys + {ChaveConta(i)}
    ensures forall k :: k in m && k != ChaveConta(i) ==> r[k] == m[k]
    ensures r[ChaveConta(i)].saldoInicial == if ChaveConta(i) in m then m[ChaveConta(i)].saldoInicial else 0.0
    ensures r[ChaveConta(i)].saidas == (if ChaveConta(i) in m then m[ChaveConta(i)].saidas else 0.0) + i.valor
    ensures r[ChaveConta(i)].saldoFinal == r[ChaveConta(i)].saldoInicial - r[ChaveConta(i)].saidas
    ensures Coerente(m) ==> Coerente(r)
  {
    var k := ChaveConta(i);
    var b := if k in m then m[k] else Saldo(0.0, 0.0, 0.0);
    var saidas := b.saidas + i.valor;
    m[k := Saldo(b.saldoInicial, saidas, b.saldoInicial - saidas)]
  }

  /** `m` is the projection of `contas` and `incluidos`: the registered and
      the charged labels, each with its registered opening balance (0 when
      unregistered), the sum of its included values as outflow, and closing
      balance opening less outflow. */
  ghost predicate Projeta(contas: seq<Conta>, incluidos: seq<Item>, m: map<string, Saldo>) {
    && (forall k :: k in m <==> SaldoRegistrado(contas, k).Some? || k in Mapear(incluidos, ChaveConta))
    && (forall k :: k in m ==> m[k].saldoInicial == SaldoRegistrado(contas, k).GetOr(0.0))
    && (forall k :: k in m ==> m[k].saidas == SomaSe(incluidos, ComChave(ChaveConta, k)))
    && Coerente(m)
  }

  /** `saldoProjetado` for the registry `contas` and the included items. */
  function SaldoProjetado(contas: seq<Conta>, incluidos: seq<Item>): (m: map<string, Saldo>)
    ensures forall k :: k in m <==> SaldoRegistrado(contas, k).Some? || k in Mapear(incluidos, ChaveConta)
    ensures forall k :: k in m ==> m[k].saldoInicial == SaldoRegistrado(contas, k).GetOr(0.0)
    ensures forall k :: k in m ==> m[k].saidas == SomaSe(incluidos, ComChave(ChaveConta, k))
    ensures forall k :: k in m ==> m[k].saldoFinal == m[k].saldoInicial - m[k].saidas
    decreases |incluidos|
  {
    if incluidos == [] then
      var m := Semear(contas);
      assert Projeta(contas, incluidos, m);
      m
    else
      var anteriores := incluidos[..|incluidos| - 1];
      var x := incluidos[|incluidos| - 1];
      var m := SaldoProjetado(contas, anteriores);
      assert Projeta(contas, anteriores, m);
      LancarProjeta(contas, incluidos, m);
      Lancar(m, x)
  }

  /** One step of the outflow loop extends the projection of all items but
      the last to the projection of all items. */
  lemma {:induction false} LancarProjeta(contas: seq<Conta>, s: seq<Item>, m: map<string, Saldo>)
    requires s != [] && Projeta(contas, s[..|s| - 1], m)
    ensures Projeta(contas, s, Lancar(m, s[|s| - 1]))
  {
    var a, x := s[..|s| - 1], s[|s| - 1];
    var r := Lancar(m, x);
    var kx := ChaveConta(x);
    assert s == a + [x];
    MapearAcrescentar(a, x, ChaveConta);
    if kx !in m {
      SomaSemChave(a, kx);
    }
    forall k | k in r
      ensures r[k].saidas == SomaSe(s, ComChave(ChaveConta, k))
    {
      assert SomaSe(s, ComChave(ChaveConta, k)) == SomaSe(a, ComChave(ChaveConta, k)) + (if kx == k then x.valor else 0.0);
    }
    assert forall k :: k in r <==> SaldoRegistrado(contas, k).Some? || k in Mapear(s, ChaveConta);
  }

  /** Items whose account label is not `k` contribute nothing to its outflow. */
  lemma {:induction false} SomaSemChave(s: seq<Item>, k: string)
    requires k !in Mapear(s, ChaveConta)
    ensures SomaSe(s, ComChave(ChaveConta, k)) == 0.0
    decreases |s|
  {
    if s != [] {
      var anteriores := s[..|s| - 1];
      assert Mapear(s, ChaveConta) == Mapear(anteriores, ChaveConta) + [ChaveConta(s[|s| - 1])];
      SomaSemChave(anteriores, k);
    }
  }

  /** Every registered account appears in the projection. Its opening
      balance is that of the last registry entry with the same label, which
      is `c`'s own balance when no later entry repeats the label. */
  lemma {:induction false} RegistradasPresentes(contas: seq<Conta>, incluidos: seq<Item>, c: Conta)
    requires c in contas
    ensures ChaveRegistro(c) in SaldoProjetado(contas, incluidos)
    ensures contas[|contas| - 1] == c ==> SaldoProjetado(contas, incluidos)[ChaveRegistro(c)].saldoInicial == c.saldoInicial
  {
    RegistradaTemSaldo(contas, c);
  }

  lemma {:induction false} RegistradaTemSaldo(contas: seq<Conta>, c: Conta)
    requires c in contas
    ensures SaldoRegistrado(contas, ChaveRegistro(c)).Some?
    decreases |contas|
  {
    var u := contas[|contas| - 1];
    if ChaveRegistro(u) != ChaveRegistro(c) {
      assert c != u;
      assert contas == contas[..|contas| - 1] + [u];
      RegistradaTemSaldo(contas[..|contas| - 1], c);
    }
  }

  /** An account charged by no included item ends where it started; an
      unregistered label starts from zero. */
  lemma {:induction false} ContaSemSaidas(contas: seq<Conta>, incluidos: seq<Item>, k: string)
    requires k in SaldoProjetado(contas, incluidos) && k !in Mapear(incluidos, ChaveConta)
    ensures SaldoProjetado(contas, incluidos)[k].saidas == 0.0
    ensures SaldoProjetado(contas, incluidos)[k].saldoFinal == SaldoProjetado(contas, incluidos)[k].saldoInicial
  {
    SomaSemChave(incluidos, k);
  }

  lemma ContaNaoRegistrada(contas: seq<Conta>, incluidos: seq<Item>, k: string)
    requires k in SaldoProjetado(contas, incluidos) && SaldoRegistrado(contas, k) == None
    ensures SaldoProjetado(contas, incluidos)[k].saldoInicial == 0.0
    ensures k in Mapear(incluidos, ChaveConta)
  {
  }
}
