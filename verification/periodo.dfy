/** The active week window. Instants are integers counting milliseconds of
    local wall-clock time from 1970-01-01 00:00 (a Thursday); weeks start on
    Monday, and daylight-saving shifts are not represented. */
module Periodo {

  const MS_POR_DIA: int := 86_400_000
  const MS_POR_SEMANA: int := 7 * MS_POR_DIA

  /** Monday 1970-01-05 00:00 is four days after the epoch; adding three days
      puts it, and every other Monday midnight, on a multiple of a week. */
  const DESLOCAMENTO_SEGUNDA: int := 3 * MS_POR_DIA

  /** A closed interval `[inicio, fim]` of instants. */
  datatype Intervalo = Intervalo(inicio: int, fim: int)

  /** `t` is a Monday at 00:00:00.000. */
  predicate SegundaMeiaNoite(t: int) {
    (t + DESLOCAMENTO_SEGUNDA) % MS_POR_SEMANA == 0
  }

  /** `startOfWeek(t, { weekStartsOn: 1 })`. */
  function InicioDaSemana(t: int): (r: int)
    ensures SegundaMeiaNoite(r)
    ensures r <= t < r + MS_POR_SEMANA
  {
    t - (t + DESLOCAMENTO_SEGUNDA) % MS_POR_SEMANA
  }

  /** `endOfWeek(t, { weekStartsOn: 1 })`: Sunday 23:59:59.999 of the week of `t`. */
  function FimDaSemana(t: int): (r: int)
    ensures t <= r
    ensures SegundaMeiaNoite(r + 1)
    ensures r + 1 - MS_POR_SEMANA <= t
  {
    InicioDaSemana(t) + MS_POR_SEMANA - 1
  }

  /** `periodo` for the reference instant `ref`. */
  function PeriodoDe(ref: int): (p: Intervalo)
    ensures p.inicio <= ref <= p.fim
    ensures p.fim - p.inicio == MS_POR_SEMANA - 1
    ensures SegundaMeiaNoite(p.inicio)
  {
    Intervalo(InicioDaSemana(ref), FimDaSemana(ref))
  }

  /** `isWithinInterval(t, { start, end })`: closed at both ends. */
  predicate Contem(p: Intervalo, t: int) {
    p.inicio <= t <= p.fim
  }

  /** `addWeeks(ref, k)`, on wall-clock time. */
  function AdicionarSemanas(ref: int, k: int): (r: int)
    ensures InicioDaSemana(r) == InicioDaSemana(ref) + k * MS_POR_SEMANA
    ensures FimDaSemana(r) == FimDaSemana(ref) + k * MS_POR_SEMANA
  {
    var r := ref + k * MS_POR_SEMANA;
    assert (r + DESLOCAMENTO_SEGUNDA) % MS_POR_SEMANA == (ref + DESLOCAMENTO_SEGUNDA) % MS_POR_SEMANA by {
      ModuloDeslocado(ref + DESLOCAMENTO_SEGUNDA, k);
    }
    r
  }

  lemma ModuloDeslocado(x: int, k: int)
    ensures (x + k * MS_POR_SEMANA) % MS_POR_SEMANA == x % MS_POR_SEMANA
  {
    var q := x / MS_POR_SEMANA;
    var m := x % MS_POR_SEMANA;
    assert x + k * MS_POR_SEMANA == (q + k) * MS_POR_SEMANA + m;
  }

  /** The week start is the latest Monday midnight at or before `t`. */
  lemma InicioEOMaisRecente(t: int, m: int)
    requires SegundaMeiaNoite(m) && m <= t
    ensures m <= InicioDaSemana(t)
  {
    var s := InicioDaSemana(t);
    if m > s {
      UnicoPorSemana(s, m);
    }
  }

  /** An instant lies in the week of `ref` exactly when it has the same week
      start as `ref`. */
  lemma MesmaSemanaSse(t: int, ref: int)
    ensures Contem(PeriodoDe(ref), t) <==> InicioDaSemana(t) == InicioDaSemana(ref)
  {
    var s := InicioDaSemana(ref);
    var u := InicioDaSemana(t);
    if Contem(PeriodoDe(ref), t) {
      InicioEOMaisRecente(t, s);
      if u > s {
        UnicoPorSemana(s, u);
      }
    }
  }

  /** Two distinct Monday midnights are at least a week apart. */
  lemma UnicoPorSemana(a: int, b: int)
    requires SegundaMeiaNoite(a) && SegundaMeiaNoite(b) && a < b
    ensures a + MS_POR_SEMANA <= b
  {
    var qa := (a + DESLOCAMENTO_SEGUNDA) / MS_POR_SEMANA;
    var qb := (b + DESLOCAMENTO_SEGUNDA) / MS_POR_SEMANA;
    assert a + DESLOCAMENTO_SEGUNDA == qa * MS_POR_SEMANA;
    assert b + DESLOCAMENTO_SEGUNDA == qb * MS_POR_SEMANA;
  }

  /** `ref` is stored as a week start and `periodo` recomputes the start from
      it: doing so again changes nothing. */
  lemma InicioIdempotente(t: int)
    ensures InicioDaSemana(InicioDaSemana(t)) == InicioDaSemana(t)
  {
  }
}
