/** Order-preserving subsequences and the filter that produces them
    (JavaScript's `Array.prototype.filter` and `map`). */
module Sequencias {

  /** `a` can be obtained from `b` by deleting elements, keeping the order. */
  ghost predicate Subsequencia<T>(a: seq<T>, b: seq<T>)
    decreases |b|
  {
    if a == [] then true
    else if b == [] then false
    else (a[|a| - 1] == b[|b| - 1] && Subsequencia(a[..|a| - 1], b[..|b| - 1]))
         || Subsequencia(a, b[..|b| - 1])
  }

  lemma {:induction false} SubsequenciaTransitiva<T>(a: seq<T>, b: seq<T>, c: seq<T>)
    requires Subsequencia(a, b) && Subsequencia(b, c)
    ensures Subsequencia(a, c)
    decreases |c|
  {
    if a == [] {
    } else if c == [] {
    } else {
      var c' := c[..|c| - 1];
      if Subsequencia(b, c') {
        SubsequenciaTransitiva(a, b, c');
      } else {
        assert b != [] && b[|b| - 1] == c[|c| - 1];
        var b' := b[..|b| - 1];
        assert Subsequencia(b', c');
        if a[|a| - 1] == b[|b| - 1] && Subsequencia(a[..|a| - 1], b') {
          SubsequenciaTransitiva(a[..|a| - 1], b', c');
        } else {
          assert Subsequencia(a, b');
          SubsequenciaTransitiva(a, b', c');
        }
      }
    }
  }

  /** The elements of `s` that satisfy `f`, in their original order. */
  function Filtrar<T(!new)>(s: seq<T>, f: T -> bool): (r: seq<T>)
    ensures Subsequencia(r, s)
    ensures forall x :: multiset(r)[x] == if f(x) then multiset(s)[x] else 0
    ensures forall x :: x in r <==> x in s && f(x)
    decreases |s|
  {
    if s == [] then []
    else
      var anteriores := Filtrar(s[..|s| - 1], f);
      assert s == s[..|s| - 1] + [s[|s| - 1]];
      if f(s[|s| - 1]) then anteriores + [s[|s| - 1]] else anteriores
  }

  lemma {:induction false} FiltrarUltimo<T(!new)>(a: seq<T>, y: T, f: T -> bool)
    ensures Filtrar(a + [y], f) == Filtrar(a, f) + (if f(y) then [y] else [])
  {
    assert (a + [y])[..|a|] == a;
  }

  /** A filter whose test every element passes returns its input unchanged. */
  lemma {:induction false} FiltrarTudo<T(!new)>(s: seq<T>, f: T -> bool)
    requires forall x :: x in s ==> f(x)
    ensures Filtrar(s, f) == s
    decreases |s|
  {
    if s != [] {
      var anteriores, ultimo := s[..|s| - 1], s[|s| - 1];
      assert s == anteriores + [ultimo];
      assert forall x :: x in anteriores ==> x in s;
      FiltrarTudo(anteriores, f);
      FiltrarUltimo(anteriores, ultimo, f);
      assert f(ultimo);
    }
  }

  /** Filtering permuted inputs gives permuted outputs. */
  lemma {:induction false} FiltrarPorMultiset<T(!new)>(a: seq<T>, b: seq<T>, f: T -> bool)
    requires multiset(a) == multiset(b)
    ensures multiset(Filtrar(a, f)) == multiset(Filtrar(b, f))
  {
    forall x
      ensures multiset(Filtrar(a, f))[x] == multiset(Filtrar(b, f))[x]
    {
    }
  }

  function Mapear<T, U>(s: seq<T>, f: T -> U): (r: seq<U>)
    ensures |r| == |s|
  {
    seq(|s|, i requires 0 <= i < |s| => f(s[i]))
  }

  /** Mapping one more element appends its image. */
  lemma {:induction false} MapearAcrescentar<T, U>(s: seq<T>, x: T, f: T -> U)
    ensures Mapear(s + [x], f) == Mapear(s, f) + [f(x)]
  {
    var e, d := Mapear(s + [x], f), Mapear(s, f) + [f(x)];
    forall k | 0 <= k < |e|
      ensures e[k] == d[k]
    {
      if k < |s| {
        assert (s + [x])[k] == s[k];
      }
    }
  }
}
