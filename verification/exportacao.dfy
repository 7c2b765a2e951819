/** The record layout of `exportarCSV`: a fixed header and one row per
    included item, each field quoted with backslash-escaped quotes, fields
    joined by `,` and rows joined by the two-character text `\n`. */
module Exportacao {
  import opened Tipos
  import opened Sequencias
  import opened Texto

  const CABECALHO: seq<string> := ["fornecedor", "descricao", "centroCusto", "banco", "conta", "metodo", "vencimento", "valor", "status"]

  /** The row separator as written in the exporter: a backslash followed by `n`. */
  const SEPARADOR_LINHAS: string := "\\n"

  /** The nine fields of one item. `textoValor` stands for
      `String(valor).replace(".", ",")`, host number formatting. */
  function CamposDe(i: Item, textoValor: real -> string): (r: seq<string>)
    ensures |r| == |CABECALHO| == 9
    ensures r[0] == i.fornecedor && r[2] == i.centroCusto && r[3] == i.banco && r[4] == i.conta
    ensures r[5] == NomeMetodo(i.metodo) && r[6] == i.vencimento
    ensures r[7] == textoValor(i.valor) && r[8] == NomeStatus(i.status)
    ensures r[1] == TrocarBarraN(i.descricao) && !TemBarraN(r[1])
    ensures !TemBarraN(i.descricao) ==> r[1] == i.descricao
  {
    assert !TemBarraN(i.descricao) ==> TrocarBarraN(i.descricao) == i.descricao by {
      if !TemBarraN(i.descricao) {
        TrocarBarraNSemEfeito(i.descricao);
      }
    }
    [i.fornecedor, TrocarBarraN(i.descricao), i.centroCusto, i.banco, i.conta,
     NomeMetodo(i.metodo), i.vencimento, textoValor(i.valor), NomeStatus(i.status)]
  }

  /** `[header, ...linhas]`. */
  function Linhas(incluidos: seq<Item>, textoValor: real -> string): (r: seq<seq<string>>)
    ensures |r| == |incluidos| + 1
    ensures r[0] == CABECALHO
    ensures forall j :: 1 <= j < |r| ==> |r[j]| == |CABECALHO| == 9
    ensures forall j :: 1 <= j < |r| ==>
      var i := incluidos[j - 1];
      && r[j][0] == i.fornecedor && r[j][2] == i.centroCusto
      && r[j][3] == i.banco && r[j][4] == i.conta
      && r[j][5] == NomeMetodo(i.metodo) && r[j][6] == i.vencimento
      && r[j][7] == textoValor(i.valor) && r[j][8] == NomeStatus(i.status)
      && r[j][1] == TrocarBarraN(i.descricao)
      && !TemBarraN(r[j][1])
      && (!TemBarraN(i.descricao) ==> r[j][1] == i.descricao)
  {
    var r := [CABECALHO] + Mapear(incluidos, (i: Item) => CamposDe(i, textoValor));
    assert forall j :: 1 <= j < |r| ==> r[j] == CamposDe(incluidos[j - 1], textoValor);
    r
  }

  /** One more item adds one more row at the end. */
  lemma {:induction false} LinhasAcrescentar(incluidos: seq<Item>, i: Item, textoValor: real -> string)
    ensures Linhas(incluidos + [i], textoValor) == Linhas(incluidos, textoValor) + [CamposDe(i, textoValor)]
  {
    var f := (i: Item) => CamposDe(i, textoValor);
    assert Linhas(incluidos + [i], textoValor) == [CABECALHO] + Mapear(incluidos + [i], f);
    assert Linhas(incluidos, textoValor) == [CABECALHO] + Mapear(incluidos, f);
    MapearAcrescentar(incluidos, i, f);
  }

  /** `"${String(v).replaceAll('"', '\\"')}"`: the field between double
      quotes, every quote inside it preceded by a backslash, reading back as
      the original text. */
  function Campo(v: string): (r: string)
    ensures |r| >= 2 && r[0] == '"' && r[|r| - 1] == '"'
    ensures forall k :: 1 <= k < |r| - 1 && r[k] == '"' ==> 1 < k && r[k - 1] == '\\'
    ensures Desescapar(r[1..|r| - 1]) == v
  {
    DesescaparEscapar(v);
    var r := "\"" + Escapar(v) + "\"";
    assert r[1..|r| - 1] == Escapar(v);
    assert forall k :: 1 <= k < |r| - 1 ==> r[k] == Escapar(v)[k - 1];
    r
  }

  /** One exported record: the quoted fields joined by commas. */
  function Registro(campos: seq<string>): (r: string)
    ensures campos == [] ==> r == ""
    ensures |campos| > 0 ==> Campo(campos[0]) <= r
  {
    Juntar(Mapear(campos, Campo), ",")
  }

  /** One more field appends a comma and the quoted field. */
  lemma {:induction false} RegistroAcrescentar(campos: seq<string>, c: string)
    ensures Registro(campos + [c]) ==
      if campos == [] then Campo(c) else Registro(campos) + "," + Campo(c)
  {
    MapearAcrescentar(campos, c, Campo);
    JuntarAcrescentar(Mapear(campos, Campo), Campo(c), ",");
  }

  /** The whole text handed to the download: the header record alone when
      nothing is included. */
  function Csv(incluidos: seq<Item>, textoValor: real -> string): (r: string)
    ensures Registro(CABECALHO) <= r
    ensures incluidos == [] ==> r == Registro(CABECALHO)
  {
    var linhas := Linhas(incluidos, textoValor);
    var registros := Mapear(linhas, Registro);
    assert registros[0] == Registro(CABECALHO);
    Juntar(registros, SEPARADOR_LINHAS)
  }

  /** One more included item appends the row separator and its record: the
      export is the header followed by one record per item, in order. */
  lemma {:induction false} CsvAcrescentar(incluidos: seq<Item>, i: Item, textoValor: real -> string)
    ensures Csv(incluidos + [i], textoValor) ==
      Csv(incluidos, textoValor) + SEPARADOR_LINHAS + Registro(CamposDe(i, textoValor))
  {
    var linhas := Linhas(incluidos, textoValor);
    LinhasAcrescentar(incluidos, i, textoValor);
    MapearAcrescentar(linhas, CamposDe(i, textoValor), Registro);
    JuntarAcrescentar(Mapear(linhas, Registro), Registro(CamposDe(i, textoValor)), SEPARADOR_LINHAS);
  }
}
