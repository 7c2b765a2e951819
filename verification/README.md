# Weekly payables schedule ("borderô") — Dafny model

This project models the data pipeline of the schedule screen in
`src/App.jsx`. The screen is written as React hooks, but underneath it is a
chain of pure functions over a list of payment items:

1. the active week `periodo` is computed from a reference instant (Monday to
   Sunday, closed at both ends) and moved by whole weeks;
2. `semanaItens` keeps the items due in that week;
3. `filtrados` applies the account, status and case-insensitive text criteria;
4. `incluidos` keeps the filtered items whose `incluir` flag is set;
5. `totalSemana`, `porBanco`, `porMetodo` and `porCentro` sum the values,
   in total and grouped by key;
6. `saldoProjetado` takes each registered account's opening balance and
   subtracts the outflow charged to it;
7. `mover` swaps an item with its neighbour, and the checkbox toggles
   `incluir`;
8. `exportarCSV` lays the included items out as quoted rows under a fixed
   header.

Every stage is a total Dafny function of a state snapshot (`Bordero.Estado`).
The modules follow the stages: `Tipos` (records), `Sequencias` (filter and
subsequence), `Texto` (lower-casing, search, join, escaping), `Periodo`,
`Filtros`, `Somas`, `Agrupamento`, `Projecao`, `Ordenacao`, `Inclusao`,
`Exportacao`, `Bordero` (the whole screen) and `Cenario` (a worked week).

Modelling decisions:

- Values (`valor`, `saldoInicial`) are exact `real`s, so sums have no
  rounding error.
- Instants are integers: milliseconds of local wall-clock time since
  1970-01-01 00:00, which was a Thursday. `startOfWeek` with
  `weekStartsOn: 1` is `t - (t + 3 days) mod 1 week`. `endOfWeek` is that
  start plus one week less 1 ms. `addWeeks(t, k)` adds `k` weeks.
- An item keeps `vencimento` as its stored text, because the export writes
  it unchanged. `parseISO` is a parameter `parse: string -> Option<int>`.
  `None` stands for an Invalid Date, which `isWithinInterval` rejects.
- The account key is the string `banco + " — " + conta`, as the code builds
  it.
- A grouping is an association list in insertion order. This is what a
  plain object becomes when it is listed with `Object.entries`.
- The export's number text, `String(valor).replace(".", ",")`, is a
  parameter `textoValor`.

Points of the code that are easy to misread:

- Unparseable due dates are dropped silently by the week filter. No per-item
  parse error is reported.
- Account keys are concatenated strings, not a composite key.
- The export escapes a quote as backslash-quote, not by doubling it as
  section 2 of RFC 4180 requires.
- The `"\\n"` literals in the exporter are the two-character text backslash,
  `n`. This holds both for the description clean-up and for the row
  separator.
- Because of this, no lossless round trip of the CSV text is claimed. Only
  the field-level escaping is proved reversible.

## Model

| member | source | states |
|---|---|---|
| `Periodo.InicioDaSemana` | src/App.jsx:66 | the week start is a Monday midnight at or before `t`, less than one week before it |
| `Periodo.FimDaSemana` | src/App.jsx:67 | the week end is at or after `t` and is the last millisecond before the next Monday midnight |
| `Periodo.PeriodoDe` | src/App.jsx:65-68 | the window contains the reference instant, starts on a Monday midnight and spans one week less 1 ms |
| `Periodo.InicioEOMaisRecente` | src/App.jsx:66 | no Monday midnight at or before `t` is later than the computed week start |
| `Periodo.MesmaSemanaSse` | src/App.jsx:65-71 | an instant is in the window of `ref` if and only if both have the same week start |
| `Periodo.InicioIdempotente` | src/App.jsx:59-66 | recomputing the start of a stored week start changes nothing |
| `Periodo.AdicionarSemanas` | src/App.jsx:161-163 | moving by `k` weeks moves both window bounds by exactly `k` weeks |
| `Bordero.Navegar` | src/App.jsx:161-163 | the previous/next week buttons shift the window by whole weeks and leave items and criteria alone |
| `Sequencias.Filtrar` | src/App.jsx:70-81 | a filter result is an order-preserving subsequence holding each passing element with its full multiplicity and nothing else |
| `Sequencias.FiltrarTudo` | src/App.jsx:74-79 | when every element passes, the filter returns its input unchanged |
| `Filtros.SemanaItens` | src/App.jsx:70-72 | the week set is the subsequence of items whose parsed due instant lies in `[inicio, fim]`, each kept as often as it occurs in `dados` |
| `Filtros.SemanaFechadaNoFim` | src/App.jsx:71 | an item due exactly at `fim` or `inicio` is kept; one due at `fim + 1` or `inicio - 1` is dropped |
| `Filtros.Filtrados` | src/App.jsx:74-79 | the criteria result is the subsequence of the week set meeting the account AND status AND search tests, each kept as often as it occurs in the week set |
| `Filtros.TextoDeBusca` | src/App.jsx:77 | the searched text is supplier, a space, description, a space, cost centre |
| `Filtros.BuscaVaziaCasa` | src/App.jsx:77 | an empty search text matches every item |
| `Filtros.BuscaIgnoraCaixa` | src/App.jsx:77 | two search texts that differ only in letter case match the same items; in particular lower-casing the search text first changes nothing |
| `Filtros.BuscaIgnoraCaixaDosCampos` | src/App.jsx:77 | items whose supplier, description and cost centre differ only in letter case are matched alike |
| `Filtros.CriteriosNeutros` | src/App.jsx:74-79 | with `Todas`, `Todos` and an empty search the week set passes unchanged |
| `Filtros.Incluidos` | src/App.jsx:81 | the included set is the subsequence of the filtered items with `incluir` true, with their multiplicities |
| `Bordero.IncluidosDe` | src/App.jsx:70-81 | the included items are a subsequence of `dados`; an item is included if and only if it is due in the week, meets the criteria and has `incluir` set, and then as often as it occurs in `dados` |
| `Texto.Minuscula` | src/App.jsx:77 | a capital (ASCII `A`..`Z`, Latin-1 `À`..`Þ` but `×`) becomes the character 32 code points above it, which is not a capital; any other character is kept |
| `Texto.MesmaCaixaMinusculas` | src/App.jsx:77 | two texts lower-case to the same text if and only if at each position they hold the same character or a capital and its small letter |
| `Texto.MinusculasIdempotente` | src/App.jsx:77 | lower-casing twice is the same as lower-casing once |
| `Texto.ContemTrechoSse` | src/App.jsx:77 | `includes` holds if and only if the needle occurs at some position of the text |
| `Texto.ContemVazio` | src/App.jsx:77 | the empty needle occurs in every text |
| `Texto.JuntarAcrescentar` | src/App.jsx:77 | `join` of one part is that part, and joining one more part appends the separator and the part |
| `Somas.TotalAcrescentar` | src/App.jsx:83 | the total is the left fold of the values: one more item adds its value, and totals add over concatenation |
| `Somas.SomaSeConcat` | src/App.jsx:83 | the sum over a concatenation is the sum of the two sums |
| `Somas.SomaSePermutacao` | src/App.jsx:83 | two lists holding the same items in any order have the same sum |
| `Agrupamento.Acumular` | src/App.jsx:86-89 | one accumulation step adds `v` under `k` only, appends `k` if it is new, and raises the grand total by `v` |
| `Agrupamento.PrimeirasOcorrencias` | src/App.jsx:86-90 | the key listing has no repeats, holds exactly the keys seen, and lists them in first-seen order: a key listed before another occurs in the input before any occurrence of the other, which is the insertion order `Object.entries` reports |
| `Agrupamento.PrimeirasOcorrenciasPasso` | src/App.jsx:86-90 | one loop step keeps first-seen order, whether the item's key is new (appended at the end) or already listed (order unchanged) |
| `Agrupamento.AcumularAgrupa` | src/App.jsx:86-89 | one pass of the grouping loop turns the grouping of a list into the grouping of that list plus one item |
| `Agrupamento.Agrupar` | src/App.jsx:84-103 | the group keys are the item keys in first-seen order; each key's value is the sum over items with that key; the group values add up to the total |
| `Agrupamento.AgruparParticiona` | src/App.jsx:84-103 | every key appears once, every item's key appears, every listed key belongs to some item, and each group holds its key's sum |
| `Agrupamento.TotaisIguais` | src/App.jsx:83-103 | the by-account, by-method and by-cost-centre groupings all total `totalSemana` |
| `Agrupamento.SomaPorChave` | src/App.jsx:215 | the inline `reduce` of the account card has the same keys and values as `porBanco` |
| `Agrupamento.SomarEmResume` | src/App.jsx:215 | one step of that `reduce` on the map mirrors one step of the grouping loop |
| `Bordero.AgruparPorMultiset` | src/App.jsx:84-103 | a grouping's values depend only on which items are grouped, not on their order |
| `Projecao.Semear` | src/App.jsx:107-110 | seeding creates exactly the registered labels, each with its registered opening balance (the last entry wins), no outflow and closing equal to opening |
| `Projecao.Lancar` | src/App.jsx:111-116 | charging an item creates its account at zero if absent, adds the value to that account's outflow only, keeps every other account, leaves the charged account closing at its opening less its outflow, and keeps each closing balance equal to opening less outflow |
| `Projecao.LancarProjeta` | src/App.jsx:111-116 | one loop step turns the projection of a list into the projection of that list plus the item |
| `Projecao.SaldoProjetado` | src/App.jsx:105-118 | keys are the registered labels plus the labels of included items; outflow is the sum of included values with that label; closing = opening - outflow, unclamped; unregistered labels open at 0 |
| `Projecao.RegistradasPresentes` | src/App.jsx:107-110 | every registered account is present in the projection; the last registry entry opens at its own balance |
| `Projecao.ContaSemSaidas` | src/App.jsx:105-118 | an account charged by no included item has no outflow and keeps closing equal to opening |
| `Projecao.ContaNaoRegistrada` | src/App.jsx:113 | a label missing from the registry opens at 0 and comes from some included item |
| `Bordero.ProjecaoPorMultiset` | src/App.jsx:105-118 | the projection depends only on which items are included, not on their order |
| `Bordero.Calcular` | src/App.jsx:65-118 | the screen chains week, criteria and `incluir`; `totalSemana` is the sum of the included values; each grouping lists the included keys in first-seen order, holds each key's sum and totals `totalSemana`; the projection holds the registered and charged labels, opening at the registered balance (0 if none), with the label's outflow equal to the sum of its included values and closing at opening less that outflow; the projection is the one `Projecao.SaldoProjetado` builds from the included items |
| `Bordero.PainelVazio` | src/App.jsx:83-118 | with nothing included, all groupings are empty, the total is 0 and every registered account closes at its opening balance |
| `Ordenacao.IndiceDe` | src/App.jsx:122-123 | `findIndex` returns -1 exactly when no item has the id, and otherwise the first position holding it |
| `Ordenacao.Alvo` | src/App.jsx:125 | the target is `max(0, idx - 1)` upwards and `min(n - 1, idx + 1)` downwards, so it is a valid position next to or at `idx` |
| `Ordenacao.Trocar` | src/App.jsx:124-128 | the swap exchanges two positions, leaves all others alone and permutes the list |
| `Ordenacao.Mover` | src/App.jsx:120-131 | a missing id returns the list unchanged; otherwise the result is a permutation of equal length that exchanges the first holder of the id with its clamped neighbour and changes nothing else |
| `Ordenacao.MoverNasPontas` | src/App.jsx:125 | moving the first item up, or the last item down, returns a list equal to the input |
| `Ordenacao.TrocarDuasVezes` | src/App.jsx:126-128 | swapping the same two positions twice restores the list |
| `Ordenacao.MoverIdaEVolta` | src/App.jsx:120-131 | moving an item up and then down restores the list when the item was not first |
| `Ordenacao.MoverPreservaSomas` | src/App.jsx:120-131 | a move changes no sum |
| `Bordero.MoverMantemIncluidos` | src/App.jsx:120-131 | after a move the same items, in the same numbers, are included |
| `Bordero.MoverNaoAlteraAgregados` | src/App.jsx:120-131 | a move changes no total, no grouping value and no projected balance |
| `Inclusao.Alternar` | src/App.jsx:254 | the toggle keeps length and order, leaves other ids untouched and changes matching items only in `incluir`, which becomes `v` |
| `Inclusao.AlternarDuasVezes` | src/App.jsx:254 | when an id is toggled twice, the second toggle wins |
| `Inclusao.AlternarSemEfeito` | src/App.jsx:254 | toggling items to the value they already hold returns the list unchanged |
| `Inclusao.FiltrarAlternar` | src/App.jsx:254 | a filter that ignores `incluir` commutes with the toggle |
| `Bordero.AlternarComutaComFiltros` | src/App.jsx:254 | toggling then filtering the week and criteria equals filtering then toggling |
| `Texto.Escapar` | src/App.jsx:136 | after escaping, every quote is preceded by a backslash; text without quotes is unchanged |
| `Texto.DesescaparEscapar` | src/App.jsx:136 | reading an escaped field back gives the original text |
| `Texto.TrocarBarraN` | src/App.jsx:135 | the description clean-up leaves no backslash-`n` pair and is shorter than its input by exactly the number of pairs in it |
| `Texto.TrocarBarraNPar` | src/App.jsx:135 | each backslash-`n` becomes one space, and the text on either side is cleaned up independently |
| `Texto.TrocarBarraNConcat` | src/App.jsx:135 | the clean-up of a text cut anywhere but inside a pair is the clean-up of the two parts, concatenated |
| `Texto.TrocarBarraNSemEfeito` | src/App.jsx:135 | a description without backslash-`n` is exported unchanged |
| `Exportacao.CamposDe` | src/App.jsx:135 | an item's row has 9 fields in header order, the description cleaned up (no backslash-`n` left; unchanged when it had none) and the value through `textoValor` |
| `Exportacao.Linhas` | src/App.jsx:134-135 | the row set is the fixed 9-column header followed by one 9-field row per included item, in order, with the fields in column order and the cleaned-up description |
| `Exportacao.LinhasAcrescentar` | src/App.jsx:135 | one more included item adds its row at the end |
| `Exportacao.Campo` | src/App.jsx:136 | a field is a quote, the escaped text with every inner quote preceded by a backslash, and a quote; its inside reads back as the original value |
| `Exportacao.Registro` | src/App.jsx:136 | a record of no fields is empty, and a record starts with its first quoted field |
| `Exportacao.RegistroAcrescentar` | src/App.jsx:136 | one more field appends a comma and the quoted field |
| `Exportacao.Csv` | src/App.jsx:136 | the exported text begins with the header record, and is exactly that record when nothing is included |
| `Exportacao.CsvAcrescentar` | src/App.jsx:136 | one more included item appends the row separator and that item's record, so the export is the header record followed by one record per item, in order |
| `Cenario.SemanaComUmItemIncluido` | src/App.jsx:40-118 | in a week with items due Monday, Wednesday and the next Monday where only the first is included, the week holds two items, the total is 3200 and Itaú — Operacional goes from 25000 to 21800 |

## Left out

- The JSX rendering is left out: the `src/components/ui/*` wrappers, `StatusBadge`, `ResumoBox`, `AtaAssinaturas` and `Assinatura`. They are presentation only.
- React state and memoisation (`useState`, `useMemo`) are left out. The screen is a pure function of a state snapshot.
- The seed list `exemplo` is left out because it reads the clock (`new Date()`, `Date.now()`). The worked week in `Cenario` uses fixed instants instead.
- Date handling inside date-fns is left out: `parseISO` (a parameter here), `format`, the `ptBR` locale, the period label and the download file name. Time zones and daylight-saving shifts are not represented either.
- Currency formatting with `Intl.NumberFormat` and the number-to-text conversion in the export are left out. The latter is the parameter `textoValor`.
- Blob/URL creation, the download click and `window.print()` are left out. They are browser I/O.
- Floating-point drift in the source's `number` sums is not modelled. Values are exact.
- `Texto.Minuscula`: lower-cases only ASCII and the Latin-1 capitals. The rest of Unicode case mapping done by `toLowerCase` is not modelled.
- `Agrupamento.Agrupar`: lists keys in first-seen order. JavaScript lists integer-like property names (a cost centre named `100`, say) first, in ascending order. That ordering is not modelled.
- `Agrupamento.Agrupar`: starts from an empty dictionary. JavaScript objects also inherit prototype names, so a cost centre named `constructor` or `__proto__` behaves differently there. This is not modelled.
- `Ordenacao.Mover`: takes the direction as `Cima` or `Baixo`. The source treats any value other than `"up"` as down, and only ever passes those two.
- `Ordenacao.MoverNasPontas`: states the "last item down" case for a last item that is the first holder of its id, because `findIndex` finds the first match.
- The order of entries of `saldoProjetado` is not modelled. The projection is a `map`.
- `Agrupamento.SomaPorChave`: is a `map`, so it does not keep the insertion order in which the account card lists its entries. Only its keys and values are stated.
- No lossless round trip of the CSV text is modelled, because the code does not provide one.
