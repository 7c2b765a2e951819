/** The string operations the schedule uses: lower-casing, substring search,
    `join`, the backslash-quote escaping of the export, and the export's
    replacement of the two-character text `\n` in descriptions. */
module Texto {

  /** The capitals `toLowerCase` changes: ASCII `A`..`Z` and the Latin-1
      capitals `À`..`Þ` except `×`, which is what Portuguese text uses. */
  predicate Maiuscula(c: char) {
    'A' <= c <= 'Z' || ('\U{00C0}' <= c <= '\U{00DE}' && c != '\U{00D7}')
  }

  /** `toLowerCase` on one character: a capital moves 32 code points up to
      its small letter, every other character is kept. */
  function Minuscula(c: char): (r: char)
    ensures Maiuscula(c) ==> r as int == c as int + 32 && !Maiuscula(r)
    ensures !Maiuscula(c) ==> r == c
    ensures !('A' <= r <= 'Z')
  {
    if Maiuscula(c) then (c as int + 32) as char else c
  }

  /** `toLowerCase` on a text, character by character. */
  function Minusculas(s: string): (r: string)
    ensures |r| == |s|
  {
    seq(|s|, i requires 0 <= i < |s| => Minuscula(s[i]))
  }

  /** Lower-casing twice is lower-casing once. */
  lemma MinusculasIdempotente(s: string)
    ensures Minusculas(Minusculas(s)) == Minusculas(s)
  {
  }

  /** Two texts that differ only in the case of their letters: at every
      position the characters are equal, or one is a capital and the other
      its small letter. */
  predicate MesmaCaixa(a: string, b: string) {
    |a| == |b| &&
    forall i :: 0 <= i < |a| ==>
      a[i] == b[i] ||
      (Maiuscula(a[i]) && b[i] as int == a[i] as int + 32) ||
      (Maiuscula(b[i]) && a[i] as int == b[i] as int + 32)
  }

  /** Texts that differ only in letter case lower-case to the same text, and
      conversely. */
  lemma {:induction false} MesmaCaixaMinusculas(a: string, b: string)
    ensures MesmaCaixa(a, b) <==> Minusculas(a) == Minusculas(b)
  {
    if MesmaCaixa(a, b) {
      forall i | 0 <= i < |a|
        ensures Minusculas(a)[i] == Minusculas(b)[i]
      {
        assert Minusculas(a)[i] == Minuscula(a[i]);
        assert Minusculas(b)[i] == Minuscula(b[i]);
      }
    }
    if Minusculas(a) == Minusculas(b) {
      forall i | 0 <= i < |a|
        ensures a[i] == b[i] ||
          (Maiuscula(a[i]) && b[i] as int == a[i] as int + 32) ||
          (Maiuscula(b[i]) && a[i] as int == b[i] as int + 32)
      {
        assert Minusculas(a)[i] == Minuscula(a[i]);
        assert Minusculas(b)[i] == Minuscula(b[i]);
      }
    }
  }

  /** Lower-casing distributes over concatenation. */
  lemma MinusculasConcat(a: string, b: string)
    ensures Minusculas(a + b) == Minusculas(a) + Minusculas(b)
  {
  }

  /** `h.includes(n)`: `n` occurs in `h` as a contiguous block. */
  predicate ContemTrecho(h: string, n: string)
    decreases |h|
  {
    if n <= h then true
    else if h == [] then false
    else ContemTrecho(h[1..], n)
  }

  /** `n` occurs in `h` starting at position `i`. */
  predicate OcorreEm(h: string, n: string, i: int) {
    0 <= i && i + |n| <= |h| && h[i..i + |n|] == n
  }

  /** The search agrees with the positional definition of an occurrence, in
      both directions. */
  lemma {:induction false} ContemTrechoSse(h: string, n: string)
    ensures ContemTrecho(h, n) <==> exists i :: OcorreEm(h, n, i)
    decreases |h|
  {
    if n <= h {
      assert OcorreEm(h, n, 0);
    } else if h == [] {
    } else {
      ContemTrechoSse(h[1..], n);
      if ContemTrecho(h[1..], n) {
        var i :| OcorreEm(h[1..], n, i);
        FatiaDaCauda(h, i + 1, i + 1 + |n|);
        assert OcorreEm(h, n, i + 1);
      } else {
        forall i
          ensures !OcorreEm(h, n, i)
        {
          if 1 <= i && i + |n| <= |h| {
            FatiaDaCauda(h, i, i + |n|);
            assert !OcorreEm(h[1..], n, i - 1);
          }
        }
      }
    }
  }

  /** A slice of the tail is the slice of the text one position later. */
  lemma {:induction false} FatiaDaCauda(h: string, i: int, j: int)
    requires 1 <= i <= j <= |h|
    ensures h[1..][i - 1..j - 1] == h[i..j]
  {
    forall k | 0 <= k < j - i
      ensures h[1..][i - 1..j - 1][k] == h[i..j][k]
    {
    }
  }

  /** The empty text occurs in every text. */
  lemma ContemVazio(h: string)
    ensures ContemTrecho(h, "")
  {
  }

  /** `parts.join(sep)`. */
  function Juntar(partes: seq<string>, sep: string): (r: string)
    ensures |partes| > 0 ==> partes[0] <= r
    decreases |partes|
  {
    if |partes| == 0 then ""
    else if |partes| == 1 then partes[0]
    else partes[0] + sep + Juntar(partes[1..], sep)
  }

  /** Joining one more part appends the separator and the part; joining a
      single part is that part. */
  lemma {:induction false} JuntarAcrescentar(partes: seq<string>, x: string, sep: string)
    ensures Juntar(partes + [x], sep) ==
      if partes == [] then x else Juntar(partes, sep) + sep + x
    decreases |partes|
  {
    if |partes| >= 2 {
      assert (partes + [x])[1..] == partes[1..] + [x];
      JuntarAcrescentar(partes[1..], x, sep);
    } else if |partes| == 1 {
      assert partes + [x] == [partes[0], x];
      assert [partes[0], x][1..] == [x];
    }
  }

  /** Three parts joined with a separator. */
  lemma {:induction false} JuntarTres(a: string, b: string, c: string, sep: string)
    ensures Juntar([a, b, c], sep) == a + sep + b + sep + c
  {
    assert [a, b, c][1..] == [b, c];
    assert [b, c][1..] == [c];
    assert Juntar([b, c], sep) == b + sep + c;
    assert Juntar([a, b, c], sep) == a + sep + (b + sep + c);
  }

  /** `replaceAll('"', '\\"')`: every double quote gets a backslash before it. */
  function Escapar(s: string): (r: string)
    ensures |r| >= |s|
    ensures forall i :: 0 <= i < |r| && r[i] == '"' ==> 0 < i && r[i - 1] == '\\'
    ensures (forall i :: 0 <= i < |s| ==> s[i] != '"') ==> r == s
    decreases |s|
  {
    if s == [] then []
    else
      var resto := Escapar(s[1..]);
      if s[0] == '"' then "\\\"" + resto else [s[0]] + resto
  }

  /** Reads the escaped text back: a backslash directly before a quote is
      dropped. */
  function Desescapar(s: string): string
    decreases |s|
  {
    if s == [] then []
    else if |s| >= 2 && s[0] == '\\' && s[1] == '"' then ['"'] + Desescapar(s[2..])
    else [s[0]] + Desescapar(s[1..])
  }

  /** The escaping loses nothing: every field reads back as it was. */
  lemma {:induction false} DesescaparEscapar(s: string)
    ensures Desescapar(Escapar(s)) == s
    decreases |s|
  {
    if s != [] {
      var resto := Escapar(s[1..]);
      DesescaparEscapar(s[1..]);
      if s[0] == '"' {
        assert Escapar(s) == "\\\"" + resto;
        assert Escapar(s)[2..] == resto;
      } else {
        assert Escapar(s) == [s[0]] + resto;
        assert Escapar(s)[1..] == resto;
        assert resto == [] || resto[0] != '"';
      }
    }
  }

  /** The two-character text backslash, `n` occurs in `s`. */
  predicate TemBarraN(s: string) {
    exists i, j :: 0 <= i < |s| && 0 <= j < |s| && j == i + 1 && s[i] == '\\' && s[j] == 'n'
  }

  /** Number of positions where a backslash is followed by `n`. Two such
      pairs never overlap, as a pair ends in `n`. */
  function ParesBarraN(s: string): nat
    decreases |s|
  {
    if |s| < 2 then 0
    else (if s[0] == '\\' && s[1] == 'n' then 1 else 0) + ParesBarraN(s[1..])
  }

  /** `replaceAll("\\n", " ")`: each two-character backslash-`n` becomes a
      space, scanning from the left. The result has no pair left and is
      shorter by one character per pair. */
  function TrocarBarraN(s: string): (r: string)
    ensures !TemBarraN(r)
    ensures |r| == |s| - ParesBarraN(s)
    // Proof aid for the first clause: a result starting with `n` comes from a
    // text starting with `n`, so no pair forms across a replaced space.
    ensures |r| > 0 && r[0] == 'n' ==> |s| > 0 && s[0] == 'n'
    decreases |s|
  {
    if |s| >= 2 && s[0] == '\\' && s[1] == 'n' then " " + TrocarBarraN(s[2..])
    else if s == [] then []
    else [s[0]] + TrocarBarraN(s[1..])
  }

  /** The replacement works piece by piece: a text cut anywhere except
      between the two characters of a pair is replaced part by part. */
  lemma {:induction false} TrocarBarraNConcat(a: string, b: string)
    requires !(|a| > 0 && a[|a| - 1] == '\\' && |b| > 0 && b[0] == 'n')
    ensures TrocarBarraN(a + b) == TrocarBarraN(a) + TrocarBarraN(b)
    decreases |a|
  {
    if a == [] {
      assert a + b == b;
    } else if |a| >= 2 && a[0] == '\\' && a[1] == 'n' {
      TrocarBarraNConcat(a[2..], b);
      TrocarBarraNPassoPar(a, b);
    } else {
      TrocarBarraNConcat(a[1..], b);
      TrocarBarraNPassoUm(a, b);
    }
  }

  /** The step of `TrocarBarraNConcat` where `a` starts with a pair. */
  lemma {:induction false} TrocarBarraNPassoPar(a: string, b: string)
    requires |a| >= 2 && a[0] == '\\' && a[1] == 'n'
    requires TrocarBarraN(a[2..] + b) == TrocarBarraN(a[2..]) + TrocarBarraN(b)
    ensures TrocarBarraN(a + b) == TrocarBarraN(a) + TrocarBarraN(b)
  {
    var ab := a + b;
    assert ab[0] == '\\' && ab[1] == 'n';
    assert ab[2..] == a[2..] + b;
    assert TrocarBarraN(ab) == " " + TrocarBarraN(a[2..] + b);
    assert TrocarBarraN(a) == " " + TrocarBarraN(a[2..]);
    Associa(" ", TrocarBarraN(a[2..]), TrocarBarraN(b));
  }

  /** The step of `TrocarBarraNConcat` where `a` starts with a character
      kept as it is. */
  lemma {:induction false} TrocarBarraNPassoUm(a: string, b: string)
    requires |a| >= 1 && !(|a| >= 2 && a[0] == '\\' && a[1] == 'n')
    requires !(a[|a| - 1] == '\\' && |b| > 0 && b[0] == 'n')
    requires TrocarBarraN(a[1..] + b) == TrocarBarraN(a[1..]) + TrocarBarraN(b)
    ensures TrocarBarraN(a + b) == TrocarBarraN(a) + TrocarBarraN(b)
  {
    var ab := a + b;
    assert ab[0] == a[0];
    assert ab[1..] == a[1..] + b;
    assert |ab| >= 2 ==> ab[1] == (a[1..] + b)[0];
    assert !(|ab| >= 2 && ab[0] == '\\' && ab[1] == 'n');
    assert TrocarBarraN(ab) == [a[0]] + TrocarBarraN(a[1..] + b);
    assert TrocarBarraN(a) == [a[0]] + TrocarBarraN(a[1..]);
    Associa([a[0]], TrocarBarraN(a[1..]), TrocarBarraN(b));
  }

  /** Concatenation is associative. */
  lemma Associa(x: string, y: string, z: string)
    ensures x + (y + z) == (x + y) + z
  {}

  /** Each backslash-`n` in the text becomes exactly one space, whatever
      surrounds it. */
  lemma {:induction false} TrocarBarraNPar(a: string, b: string)
    ensures TrocarBarraN(a + "\\n" + b) == TrocarBarraN(a) + " " + TrocarBarraN(b)
  {
    var nb := "\\n" + b;
    assert a + "\\n" + b == a + nb;
    assert nb[0] == '\\' && nb[1] == 'n' && nb[2..] == b;
    TrocarBarraNConcat(a, nb);
    assert TrocarBarraN(nb) == " " + TrocarBarraN(b);
    Associa(TrocarBarraN(a), " ", TrocarBarraN(b));
  }

  /** A text without backslash-`n` comes back unchanged. */
  lemma {:induction false} TrocarBarraNSemEfeito(s: string)
    requires !TemBarraN(s)
    ensures TrocarBarraN(s) == s
    decreases |s|
  {
    if s != [] {
      TrocarBarraNSemEfeito(s[1..]);
    }
  }
}
