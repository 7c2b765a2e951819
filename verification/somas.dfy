/** Exact sums of item values, the `reduce((a, i) => a + i.valor, 0)` of the
    schedule, restricted to the items a test selects. */
module Somas {
  import opened Tipos

  /** Sum of `valor` over the items of `s` that satisfy `p`, folded from the
      left as `reduce` does. */
  function SomaSe(s: seq<Item>, p: Item -> bool): real
    decreases |s|
  {
    if s == [] then 0.0
    else SomaSe(s[..|s| - 1], p) + (if p(s[|s| - 1]) then s[|s| - 1].valor else 0.0)
  }

  predicate Sempre(i: Item) {
    true
  }

  /** `totalSemana`: the sum of every value. */
  function Total(s: seq<Item>): (r: real)
    ensures s == [] ==> r == 0.0
  {
    SomaSe(s, Sempre)
  }

  /** The total is the left fold of the values: it starts at 0 and each item
      adds its value, and it is additive over concatenation. */
  lemma {:induction false} TotalAcrescentar(s: seq<Item>, x: Item, t: seq<Item>)
    ensures Total(s + [x]) == Total(s) + x.valor
    ensures Total(s + t) == Total(s) + Total(t)
  {
    assert (s + [x])[..|s|] == s;
    SomaSeConcat(s, t, Sempre);
  }

  /** The test "the item's key under `chave` is `k`". */
  function ComChave<K(==)>(chave: Item -> K, k: K): Item -> bool {
    i => chave(i) == k
  }

  lemma {:induction false} SomaSeConcat(a: seq<Item>, b: seq<Item>, p: Item -> bool)
    ensures SomaSe(a + b, p) == SomaSe(a, p) + SomaSe(b, p)
    decreases |b|
  {
    if b != [] {
      var b' := b[..|b| - 1];
      SomaSeConcat(a, b', p);
      assert (a + b)[..|a + b| - 1] == a + b';
    } else {
      assert a + b == a;
    }
  }

  lemma {:induction false} SomaSeUnitaria(x: Item, p: Item -> bool)
    ensures SomaSe([x], p) == if p(x) then x.valor else 0.0
  {
    assert [x][..0] == [];
  }

  /** Taking one item out of a list takes its contribution out of the sum. */
  lemma {:induction false} SomaSeRemover(b: seq<Item>, j: int, p: Item -> bool)
    requires 0 <= j < |b|
    ensures SomaSe(b, p) == SomaSe(b[..j] + b[j + 1..], p) + (if p(b[j]) then b[j].valor else 0.0)
  {
    var antes, depois := b[..j], b[j + 1..];
    assert b == antes + [b[j]] + depois;
    SomaSeConcat(antes, depois, p);
    SomaSeConcat(antes + [b[j]], depois, p);
    SomaSeConcat(antes, [b[j]], p);
    SomaSeUnitaria(b[j], p);
  }

  lemma {:induction false} MultisetRemover<T>(a: seq<T>, b: seq<T>, j: int)
    requires |a| > 0 && 0 <= j < |b| && b[j] == a[|a| - 1]
    requires multiset(a) == multiset(b)
    ensures multiset(a[..|a| - 1]) == multiset(b[..j] + b[j + 1..])
  {
    var x := a[|a| - 1];
    var antes, depois := b[..j], b[j + 1..];
    assert a == a[..|a| - 1] + [x];
    assert b == antes + [x] + depois;
    assert multiset(b) == multiset(antes) + multiset{x} + multiset(depois);
    assert multiset(a) == multiset(a[..|a| - 1]) + multiset{x};
    assert multiset(antes + depois) == multiset(antes) + multiset(depois);
    forall y
      ensures multiset(antes + depois)[y] == multiset(a[..|a| - 1])[y]
    {
      assert multiset(b)[y] == multiset(a)[y];
    }
  }

  /** A sum does not depend on the order of the items: any permutation has
      the same sum. */
  lemma {:induction false} SomaSePermutacao(a: seq<Item>, b: seq<Item>, p: Item -> bool)
    requires multiset(a) == multiset(b)
    ensures SomaSe(a, p) == SomaSe(b, p)
    decreases |a|
  {
    if a == [] {
      assert |b| == |multiset(b)| == 0;
    } else {
      var x := a[|a| - 1];
      assert x in multiset(b) by {
        assert a == a[..|a| - 1] + [x];
      }
      var j :| 0 <= j < |b| && b[j] == x;
      MultisetRemover(a, b, j);
      SomaSePermutacao(a[..|a| - 1], b[..j] + b[j + 1..], p);
      SomaSeRemover(b, j, p);
    }
  }
}
