# VoxFundamentos FII core in Dafny

This project models the core of VoxFundamentos, a service that ranks
Brazilian real-estate investment funds (FIIs) and builds portfolios from
them. It covers four pieces:

- **Scoring rules.** A fund's segment decides its type (tijolo, papel or
  híbrido). Each type has its own pre-filters, step scores (`Nota*`),
  weighted sum, segment bonus, clamp to [0, 10], risk tier and investor
  profile.
- **Fund service.** This covers the per-type, mixed, reliable-risk,
  high-risk and anchoring rankings, and the Selic-relative filter with its
  P/VP and DY ranks. It also covers the suggested, parametrised,
  percentage and profile portfolios, with largest-remainder apportionment,
  bucket weights capped at 15 %, normalisation to 100 % and cross-bucket
  de-duplication. The last parts are the reason lists and the dividend
  helpers.
- **Repository.** It decodes scraped rows into `Fii` records and looks up a
  ticker. The 6-hour cache becomes a `map` field of a class, and the clock
  is a parameter.
- **Scraper.** This covers header normalisation, the header/cell zip of
  `ParseTableRows` with its error guards, and the guard structure of
  `ParseDecimalBr` and `ParseIntBr`.

C# `decimal` is modelled as `real`. `Math.Round(x, 2)` is banker's
rounding (`Decimals.Round2`). Strings are `seq<char>`. Code that mutates
step by step is written as methods with loops, proved equal to a
specification function:

- the counting loops;
- `Pick` with its `usados` set;
- `NormalizarParaCem` on an array;
- the profile dictionary;
- the row decoding;
- `Get`.

The properties are proved as lemmas about those functions.

## Model

| member | source | states |
|---|---|---|
| ScoreRules.DetectarTipo | VoxFundamentos.Application/Scoring/FiiScoreRules.cs:29-43 | PAPEL exactly when the normalised segment mentions cri, receb or papel; HIBRIDO exactly when it does not but mentions hibr; TIJOLO otherwise |
| ScoreRules.DetectarTipoBlank | VoxFundamentos.Application/Scoring/FiiScoreRules.cs:29-43 | a blank segment is TIJOLO |
| ScoreRules.DetectarTipoPapelVenceHibrido | VoxFundamentos.Application/Scoring/FiiScoreRules.cs:33-39 | a segment with both "hibr" and "cri" is PAPEL: the papel checks win |
| ScoreRules.Normalizar | VoxFundamentos.Application/Scoring/FiiScoreRules.cs:214-223 | a blank input normalises to "" |
| ScoreRules.StripDiacritics | VoxFundamentos.Application/Scoring/FiiScoreRules.cs:216-222 | removing combining marks never lengthens the text |
| ScoreRules.StripDiacriticsSemMarcas | VoxFundamentos.Application/Scoring/FiiScoreRules.cs:216-222 | without combining marks, the result is the base letter of each character, in place |
| ScoreRules.NotaVacanciaTijolo | VoxFundamentos.Application/Scoring/FiiScoreRules.cs:127-134 | the grade is one of 0/4/6/7/8/10, and at least 6 for vacancy ≤ 15 |
| ScoreRules.NotaLiquidez | VoxFundamentos.Application/Scoring/FiiScoreRules.cs:136-143 | the grade is one of 0/4/6/7/8/10, and at least 6 for liquidity ≥ 500k |
| ScoreRules.NotaValorMercado | VoxFundamentos.Application/Scoring/FiiScoreRules.cs:145-152 | the grade is one of 0/4/6/7/8/10, and at least 4 |
| ScoreRules.NotaDyTijolo | VoxFundamentos.Application/Scoring/FiiScoreRules.cs:154-162 | the grade is one of 0/4/6/7/8/10, and at least 4 |
| ScoreRules.NotaDyPapel | VoxFundamentos.Application/Scoring/FiiScoreRules.cs:164-171 | the grade is one of 0/4/6/7/8/10, and at least 4 |
| ScoreRules.NotaPvp | VoxFundamentos.Application/Scoring/FiiScoreRules.cs:173-182 | the grade is one of 0/4/6/7/8/10, and at least 4 |
| ScoreRules.NotaQtdImoveis | VoxFundamentos.Application/Scoring/FiiScoreRules.cs:184-191 | the grade is one of 0/4/6/7/8/10, and at least 4 |
| ScoreRules.NotasMonotonas | VoxFundamentos.Application/Scoring/FiiScoreRules.cs:127-191 | the liquidity, market-value and property-count grades never fall as the input grows; the vacancy grade never rises |
| ScoreRules.BonusSegmentoTijolo | VoxFundamentos.Application/Scoring/FiiScoreRules.cs:193-201 | the bonus is 0, 0.1 or 0.3, so it is never negative |
| ScoreRules.ClassificarRisco | VoxFundamentos.Application/Scoring/FiiScoreRules.cs:203-209 | Conservador exactly when the score is ≥ 8, Arrojado exactly when it is < 6.5, Moderado otherwise, and never N/A |
| ScoreRules.ClassificarRiscoMonotono | VoxFundamentos.Application/Scoring/FiiScoreRules.cs:203-209 | a higher score never gets a riskier tier |
| ScoreRules.Clamp | VoxFundamentos.Application/Scoring/FiiScoreRules.cs:211-212 | the result is within [lo, hi], equals v when v is in range, and is otherwise a bound |
| ScoreRules.CalcularScoreTijolo | VoxFundamentos.Application/Scoring/FiiScoreRules.cs:45-86 | the step-by-step method (reasons appended, score reassigned) returns exactly the tijolo score triple |
| ScoreRules.CalcularScorePapel | VoxFundamentos.Application/Scoring/FiiScoreRules.cs:88-123 | the step-by-step method returns exactly the papel score triple |
| ScoreRules.ScoreTijolo | VoxFundamentos.Application/Scoring/FiiScoreRules.cs:45-86 | the risk is N/A exactly when a pre-filter rejects the fund, and then the score is 0 with that one reason; the scored case is stated by `ScoreRules.ScoreTijoloFacts` |
| ScoreRules.ScoreTijoloFacts | VoxFundamentos.Application/Scoring/FiiScoreRules.cs:50-85 | the score is 0 iff a pre-filter fails (liquidity < 500k, DY < 6, vacancy > 15); then the risk is N/A with one reason. Otherwise the raw sum is ≥ 4.9 and the score is in (0, 10], a multiple of 0.05, unchanged by rounding, with a risk that matches it |
| ScoreRules.ScorePapel | VoxFundamentos.Application/Scoring/FiiScoreRules.cs:88-123 | the risk is N/A exactly when a pre-filter rejects the fund, and then the score is 0 with that one reason; the scored case is stated by `ScoreRules.ScorePapelFacts` |
| ScoreRules.ScorePapelFacts | VoxFundamentos.Application/Scoring/FiiScoreRules.cs:93-122 | the score is 0 iff a pre-filter fails (liquidity < 400k, DY < 8); then the risk is N/A with one reason. Otherwise the raw sum is ≥ 2.7 and the score is in (0, 10], a multiple of 0.05, with a risk that matches it |
| ScoreRules.PenalidadePapelExata | VoxFundamentos.Application/Scoring/FiiScoreRules.cs:103-112 | vacancy above 30 subtracts exactly 0.3 from the papel raw score |
| ScoreRules.NormalizarLogistica | VoxFundamentos.Application/Scoring/FiiScoreRules.cs:214-223 | "Logística" normalises to "logistica" |
| ScoreRules.SegmentoLogistica | VoxFundamentos.Application/Scoring/FiiScoreRules.cs:29-43 | "Logística" is a tijolo segment with bonus 0.3 |
| ScoreRules.ExemploLogistica | VoxFundamentos.Application/Scoring/FiiScoreRules.cs:55-85 | liquidity 2M, value 2bn, DY 9, P/VP 1, vacancy 5, "Logística" scores 10 after the clamp, Conservador, with no reasons |
| ScoreRules.IsRiscoConfiavel | VoxFundamentos.Application/Scoring/FiiScoreRules.cs:225-235 | the controlled-risk window: score in [6.5, 7.7], liquidity ≥ 800k, market value ≥ 600M, DY ≥ 9 and P/VP ≤ 1.10 (a predicate; used by `Ranking.RiscoConfiavelFacts`) |
| ScoreRules.ClassificarPerfil | VoxFundamentos.Application/Scoring/FiiScoreRules.cs:7-27 | first matching rule wins, each as an iff: Risco Controlado iff reliable-risk; Ancoragem iff not reliable and score ≥ 8 with Conservador; Potencial iff neither and 7 ≤ score < 8; Risco Elevado otherwise, including null |
| ScoreRules.PerfilDeFundoPontuado | VoxFundamentos.Application/Scoring/FiiScoreRules.cs:7-27 | for a fund whose risk is its score's tier: score ≥ 8 means Ancoragem; reliable-risk means Risco Controlado; 7 ≤ score < 8 means Potencial; below 7 means Risco Elevado |
| Scraper.NormalizeHeader | VoxFundamentos.Infrastructure/Scraping/FundamentusFiiScraper.cs:114-126 | the key is as long as the trimmed header |
| Scraper.NormalizeHeaderChars | VoxFundamentos.Infrastructure/Scraping/FundamentusFiiScraper.cs:116-124 | each key character is the upper-cased trimmed character with the accent and space replacements applied |
| Scraper.NormalizeHeaderShape | VoxFundamentos.Infrastructure/Scraping/FundamentusFiiScraper.cs:114-126 | the key has no space, no replaced character and no surrounding white space; it is upper case; it is empty iff the header is blank |
| Scraper.ExemploDividendYield | VoxFundamentos.Infrastructure/Scraping/FundamentusFiiScraper.cs:114-126 | "Dividend Yield" gives DIVIDEND_YIELD |
| Scraper.ExemploQtdImoveis | VoxFundamentos.Infrastructure/Scraping/FundamentusFiiScraper.cs:114-126 | "Qtd de imóveis" gives QTD_DE_IMOVEIS |
| Scraper.ExemploVacanciaMedia | VoxFundamentos.Infrastructure/Scraping/FundamentusFiiScraper.cs:114-126 | "Vacância Média" gives VACANCIA_MEDIA |
| Scraper.IndexOfKey | VoxFundamentos.Infrastructure/Scraping/FundamentusFiiScraper.cs:99 | the first entry whose key equals k ignoring case, or -1 iff there is none |
| Scraper.Lookup | VoxFundamentos.Infrastructure/Scraping/FundamentusFiiScraper.cs:99 | a key is found iff some entry matches it ignoring case |
| Scraper.LookupSetEntry | VoxFundamentos.Infrastructure/Scraping/FundamentusFiiScraper.cs:104 | after `dict[k] = v`, k reads v and every other key reads as before |
| Scraper.SetEntryUnique | VoxFundamentos.Infrastructure/Scraping/FundamentusFiiScraper.cs:104 | the dictionary keeps its keys distinct ignoring case |
| Scraper.RowDictLookup | VoxFundamentos.Infrastructure/Scraping/FundamentusFiiScraper.cs:101-105 | after the cell loop, key i holds value i when no later key equals it: a later duplicate header overwrites |
| Scraper.RowDictMissing | VoxFundamentos.Infrastructure/Scraping/FundamentusFiiScraper.cs:101-105 | a key not among the first n keys is absent |
| Scraper.ZipRowLookup | VoxFundamentos.Infrastructure/Scraping/FundamentusFiiScraper.cs:101-105 | NormalizeHeader(headers[i]) maps to the trimmed cell i for i < min(headers, cells), unless a later header overwrites it |
| Scraper.ZipRowIgnoresExtraCells | VoxFundamentos.Infrastructure/Scraping/FundamentusFiiScraper.cs:101 | cells beyond the headers do not change the row |
| Scraper.Cabecalhos | VoxFundamentos.Infrastructure/Scraping/FundamentusFiiScraper.cs:81-84 | the kept headers are non-blank and no more than the header cells |
| Scraper.CabecalhosVazios | VoxFundamentos.Infrastructure/Scraping/FundamentusFiiScraper.cs:81-87 | no header survives iff every header text is blank |
| Scraper.ParseTableRows | VoxFundamentos.Infrastructure/Scraping/FundamentusFiiScraper.cs:71-111 | the nested loops produce exactly the row list of the table specification |
| Scraper.MontarLinha | VoxFundamentos.Infrastructure/Scraping/FundamentusFiiScraper.cs:99-105 | the inner loop builds exactly the zipped row |
| Scraper.ParseTableRowsCasos | VoxFundamentos.Infrastructure/Scraping/FundamentusFiiScraper.cs:77-90 | no table fails with "table not found" and nothing else does; every header blank fails with "headers not found" and nothing else does; no data rows gives an empty list |
| Scraper.LinhasCount | VoxFundamentos.Infrastructure/Scraping/FundamentusFiiScraper.cs:94-108 | one row per data row with cells; rows without cells are skipped |
| Scraper.ParseDecimalBr | VoxFundamentos.Infrastructure/Scraping/FundamentusFiiScraper.cs:128-150 | a blank input reads as 0; every case is stated by `Scraper.ParseDecimalBrCasos` |
| Scraper.ParseDecimalBrCasos | VoxFundamentos.Infrastructure/Scraping/FundamentusFiiScraper.cs:128-150 | 0 for blank, "-" or "—" after trimming and dropping "%"; else the pt-BR reading, else the invariant reading of the rewritten text, else 0; the result is always one of these |
| Scraper.LimpaDecimalSemPercentual | VoxFundamentos.Infrastructure/Scraping/FundamentusFiiScraper.cs:132-135 | the text the parsers see has no "%" |
| Scraper.ParseIntBr | VoxFundamentos.Infrastructure/Scraping/FundamentusFiiScraper.cs:152-167 | a blank input reads as 0; every case is stated by `Scraper.ParseIntBrCasos` |
| Scraper.ParseIntBrCasos | VoxFundamentos.Infrastructure/Scraping/FundamentusFiiScraper.cs:152-167 | 0 for blank, "-" or "—" after trimming (no "%" removal); else the pt-BR reading, else the invariant reading of the rewritten text, else 0; the result is always one of these |
| Scraper.VazioEhZero | VoxFundamentos.Infrastructure/Scraping/FundamentusFiiScraper.cs:128-156 | "" decodes to 0 for decimals and integers |
| Repository.FirstPvpIndex | VoxFundamentos.Infrastructure/Repositories/FiiRepository.cs:67-71 | the first key containing "P/VP" ignoring case or equal to "PVP", or -1 iff none |
| Repository.GetSpec | VoxFundamentos.Infrastructure/Repositories/FiiRepository.cs:59-75 | the exact key ignoring case, else for "P/VP" the first P/VP-like column, else "" (the definition `Repository.Get` is proved against; cases in `Repository.GetCasos`) |
| Repository.Get | VoxFundamentos.Infrastructure/Repositories/FiiRepository.cs:59-75 | the method with its scan returns exactly the lookup specification |
| Repository.GetCasos | VoxFundamentos.Infrastructure/Repositories/FiiRepository.cs:59-75 | a present key returns its value; a missing "P/VP" returns the first P/VP-like key's value; anything else returns "" |
| Repository.DecodificarLinhas | VoxFundamentos.Infrastructure/Repositories/FiiRepository.cs:28-53 | the loop returns exactly the decoded list |
| Repository.Decodificar | VoxFundamentos.Infrastructure/Repositories/FiiRepository.cs:28-53 | the rows with a non-blank ticker, in order, each built into a fund (definition; properties in `Repository.DecodificarFacts`) |
| Repository.DecodificarFacts | VoxFundamentos.Infrastructure/Repositories/FiiRepository.cs:28-53 | one record per row with non-blank PAPEL and none for the rest; no more records than rows; every record has a non-blank ticker and comes from such a row |
| Repository.DecodificarConcat | VoxFundamentos.Infrastructure/Repositories/FiiRepository.cs:30-53 | decoding keeps row order: it distributes over concatenation |
| Repository.ColunaAusenteZero | VoxFundamentos.Infrastructure/Repositories/FiiRepository.cs:39-74 | an absent numeric column reads as "" and decodes to 0 |
| Repository.MontarFii | VoxFundamentos.Infrastructure/Repositories/FiiRepository.cs:36-50 | one fund from one row: each column read with Get and parsed by the pt-BR parsers (definition; used by `Repository.DecodificarFacts`) |
| Repository.Carregar | VoxFundamentos.Infrastructure/Repositories/FiiRepository.cs:25-55 | a download or table failure propagates, and success decodes the parsed rows |
| Repository.BuscarPorPapel | VoxFundamentos.Infrastructure/Repositories/FiiRepository.cs:84-85 | the first record whose ticker equals the input ignoring case; none iff no record matches |
| Repository.FiiRepository.constructor | VoxFundamentos.Infrastructure/Repositories/FiiRepository.cs:13-17 | the cache starts empty |
| Repository.FiiRepository.ObterTodos | VoxFundamentos.Infrastructure/Repositories/FiiRepository.cs:19-57 | a cache entry younger than 6 h is returned unchanged without loading; otherwise the loaded list is returned and stored on success |
| Repository.FiiRepository.ObterPorPapel | VoxFundamentos.Infrastructure/Repositories/FiiRepository.cs:77-86 | a blank ticker gives null without touching the cache; otherwise the first record matching the trimmed ticker ignoring case, from the cache or a fresh load, which is then cached for 6 hours; a failed load leaves the cache as it was |
| Apportion.CalcularQuantidades | VoxFundamentos.Application/Services/FiiService.cs:685-724 | the while loop returns exactly the largest-remainder apportionment of the three weights |
| Apportion.CalcularQuantidades4 | VoxFundamentos.Application/Services/FiiService.cs:726-767 | the same for the four profile weights |
| Apportion.Quantidades | VoxFundamentos.Application/Services/FiiService.cs:685-724 | one count per weight: its floor plus the round-robin extras (properties in `Apportion.QuantidadesSomam` and its neighbours) |
| Apportion.QuantidadesSomam | VoxFundamentos.Application/Services/FiiService.cs:685-767 | for weights summing to 100, the counts sum to the total |
| Apportion.QuantidadesPisoOuMais | VoxFundamentos.Application/Services/FiiService.cs:685-767 | each count is the floor of w/100·N or that plus one |
| Apportion.QuantidadesNaoNegativas | VoxFundamentos.Application/Services/FiiService.cs:685-767 | with a non-negative total and weights, no count is negative |
| Apportion.QuantidadesMaioresRestos | VoxFundamentos.Application/Services/FiiService.cs:700-722 | a slot that got an extra unit has a larger remainder than one that did not, or an equal remainder and an earlier position (stable tie order) |
| Apportion.ExtrasZeroOuUm | VoxFundamentos.Application/Services/FiiService.cs:704-722 | each slot gets at most one extra unit |
| Pesos.PesoBase | VoxFundamentos.Application/Services/FiiService.cs:775-778 | the weight is round(peso/n, 2) capped at maxPorAtivo |
| Pesos.DistribuirPeso | VoxFundamentos.Application/Services/FiiService.cs:769-794 | one item per input, each with the same capped weight |
| Pesos.DistribuirPesoFacts | VoxFundamentos.Application/Services/FiiService.cs:769-794 | items keep the ticker, score and order and carry the bucket tag; weights have two decimals and are equal and within the cap; uncapped weights sum to within n·0.005 of the bucket weight |
| Pesos.IndiceMelhor | VoxFundamentos.Application/Services/FiiService.cs:804-806 | the index of the first item with the maximum score |
| Pesos.NormalizarParaCem | VoxFundamentos.Application/Services/FiiService.cs:796-812 | the in-place update of the array equals the normalised list |
| Pesos.NormalizadoParaCem | VoxFundamentos.Application/Services/FiiService.cs:796-812 | keeps the length; the sum and the single changed item are stated by `Pesos.NormalizadoSomaCem` and `Pesos.NormalizadoSoMudaMelhor` |
| Pesos.NormalizadoSomaCem | VoxFundamentos.Application/Services/FiiService.cs:796-812 | a non-empty two-decimal list sums to exactly 100 afterwards |
| Pesos.NormalizadoSoMudaMelhor | VoxFundamentos.Application/Services/FiiService.cs:796-812 | an empty list is unchanged; otherwise only the weight of the best-score item changes |
| Pesos.TetoAposNormalizar | VoxFundamentos.Application/Services/FiiService.cs:796-812 | every other item keeps its cap, so only the best item can break 15 % |
| Selecao.TickerSet.constructor | VoxFundamentos.Application/Services/FiiService.cs:293 | the used-ticker set starts empty |
| Selecao.TickerSet.Add | VoxFundamentos.Application/Services/FiiService.cs:679 | `Add` reports true iff the upper-cased ticker was new, and adds it |
| Selecao.Pick | VoxFundamentos.Application/Services/FiiService.cs:673-683 | the loop returns exactly the greedy choice, and the set grows by the chosen tickers |
| Selecao.Escolher | VoxFundamentos.Application/Services/FiiService.cs:673-683 | takes no more funds than the source has; the rest is stated by `Selecao.EscolherFacts` |
| Selecao.EscolherFacts | VoxFundamentos.Application/Services/FiiService.cs:673-683 | an in-order subsequence of the source of length ≤ qtd, with no ticker already used and none repeated (ignoring case); afterwards the used set holds every pick |
| Selecao.EscolhasDisjuntas | VoxFundamentos.Application/Services/FiiService.cs:293-298 | two picks in a row through the shared set share no ticker |
| Motivos.MotivosDoPerfil | VoxFundamentos.Application/Services/FiiService.cs:633-664 | the profile reasons are never blank, and never empty for the two risk profiles |
| Motivos.MotivosPerfil | VoxFundamentos.Application/Services/FiiService.cs:633-670 | never empty and never blank; the generic reason is added only when there is no specific one |
| Motivos.DistinctPorMembros | VoxFundamentos.Application/Services/FiiService.cs:411-414 | the distinct step keeps only input entries with unseen keys, once each |
| Motivos.DistinctPorCompleto | VoxFundamentos.Application/Services/FiiService.cs:411-414 | every input key is seen or kept |
| Motivos.LimparFacts | VoxFundamentos.Application/Services/FiiService.cs:411-414 | non-empty, non-blank, no duplicates ignoring case, and every non-blank input kept in some spelling |
| Motivos.CalcularTipoEMotivos | VoxFundamentos.Application/Services/FiiService.cs:372-420 | the forced profile wins, otherwise the fund is classified from its own temporary ranking |
| Motivos.TipoEMotivosFacts | VoxFundamentos.Application/Services/FiiService.cs:403-419 | the reasons are the cleaned raw reasons: never empty, never blank, never repeated ignoring case, and complete |
| Motivos.Detalhar | VoxFundamentos.Application/Services/FiiService.cs:330-359 | the detail keeps the fund and the profile, with the dividend from the oracle or 0; its reasons are the cleaned reasons and never empty |
| Ranking.TopEfetivo | VoxFundamentos.Application/Services/FiiService.cs:512 | top ≤ 0 becomes 10; any other top is kept |
| Ranking.TopOrdenadoFacts | VoxFundamentos.Application/Services/FiiService.cs:540-548 | the top list is ordered by score then liquidity, descending, and drawn from the input |
| Ranking.TopOrdenadoMelhores | VoxFundamentos.Application/Services/FiiService.cs:540-548 | a left-out candidate means the list is full and every entry precedes it |
| Ranking.CandidatosFacts | VoxFundamentos.Application/Services/FiiService.cs:514-538 | every candidate has the requested type and a positive score, and is the ranking of a fund of that type |
| Ranking.RankingPorTipo | VoxFundamentos.Application/Services/FiiService.cs:510-549 | at most top entries (10 when top ≤ 0); contents and order stated by `Ranking.RankingPorTipoFacts` |
| Ranking.RankingPorTipoFacts | VoxFundamentos.Application/Services/FiiService.cs:510-549 | at most top entries, ordered, each a candidate of the type with score > 0 |
| Ranking.RankingPorTipoMelhores | VoxFundamentos.Application/Services/FiiService.cs:510-549 | the ranking holds the best candidates: anything left out is beaten by all of them |
| Ranking.PorTipoMisto | VoxFundamentos.Application/Services/FiiService.cs:556 | each per-type ranking asks for max(80, top) |
| Ranking.RankingMisto | VoxFundamentos.Application/Services/FiiService.cs:551-566 | at most top entries; contents and order stated by `Ranking.RankingMistoFacts` |
| Ranking.RankingMistoFacts | VoxFundamentos.Application/Services/FiiService.cs:551-566 | at most top entries, ordered, each from the tijolo or papel ranking with score > 0 |
| Ranking.RiscoConfiavel | VoxFundamentos.Application/Services/FiiService.cs:94-109 | at most top entries; contents and order stated by `Ranking.RiscoConfiavelFacts` |
| Ranking.RiscoConfiavelFacts | VoxFundamentos.Application/Services/FiiService.cs:94-109 | ordered, and each entry is reliable-risk and from the base mixed ranking |
| Ranking.RiscoElevadoLista | VoxFundamentos.Application/Services/FiiService.cs:111-125 | at most top entries; contents and order stated by `Ranking.RiscoElevadoFacts` |
| Ranking.RiscoElevadoFacts | VoxFundamentos.Application/Services/FiiService.cs:111-125 | ordered, and each entry is classified Risco Elevado and from the base ranking |
| Ranking.IsShopping | VoxFundamentos.Application/Services/FiiService.cs:814-818 | a non-blank segment whose trimmed lower-case text contains "shopping" (a predicate; see `Ranking.IsShoppingSemGuarda`) |
| Ranking.IsShoppingSemGuarda | VoxFundamentos.Application/Services/FiiService.cs:814-818 | shopping iff the trimmed lower-case segment contains "shopping" |
| Ranking.Ancoragem | VoxFundamentos.Application/Services/FiiService.cs:60-75 | no more funds than the input; contents and order stated by `Ranking.AncoragemFacts` |
| Ranking.AncoragemFacts | VoxFundamentos.Application/Services/FiiService.cs:60-75 | exactly the funds meeting the anchoring criteria, ordered by ticker ignoring case |
| Ranking.PosicaoIgnoreCase | VoxFundamentos.Application/Services/FiiService.cs:458-470 | the first position whose ticker equals p ignoring case, or -1 iff none |
| Ranking.RepetidoPorFacts | VoxFundamentos.Application/Services/FiiService.cs:459-464 | no repeated ticker is found iff the tickers are distinct ignoring case |
| Ranking.FiltradosVazio | VoxFundamentos.Application/Services/FiiService.cs:453-454 | an empty filter result gives an empty list |
| Ranking.FiltradosFalha | VoxFundamentos.Application/Services/FiiService.cs:456-464 | the filter fails (ToDictionary throws) iff two filtered tickers are equal ignoring case |
| Ranking.RankPosicao | VoxFundamentos.Application/Services/FiiService.cs:456-466 | a fund's rank is its 1-based position in the sorted list |
| Ranking.RanksDistintos | VoxFundamentos.Application/Services/FiiService.cs:456-466 | different funds get different ranks, so each rank is a permutation of 1..N |
| Ranking.RanqueadoFacts | VoxFundamentos.Application/Services/FiiService.cs:456-471 | each ranked fund has P/VP and DY ranks in 1..N and rankLevel equal to their mean |
| Ranking.Filtrados | VoxFundamentos.Application/Services/FiiService.cs:426-504 | an empty window gives an empty list; the only failure is a ticker repeated ignoring case, an ArgumentException; the rest is stated by `Ranking.FiltradosFacts`, `Ranking.FiltradosDistintos` and `Ranking.FiltradosMelhores` |
| Ranking.FiltradosFacts | VoxFundamentos.Application/Services/FiiService.cs:426-504 | exactly min(top, N) entries for the N funds of the window, ordered by (rankLevel, rankPvp, rankDy); each entry passes the Selic/DY/P/VP/liquidity/vacancy filter and carries its own fund's P/VP rank and DY rank in the window (each in 1..N) and their mean as rankLevel |
| Ranking.RanqueadosDistintos | VoxFundamentos.Application/Services/FiiService.cs:456-471 | two positions of the window are funds with different tickers ignoring case, different P/VP ranks and different DY ranks |
| Ranking.OrigemPorIndice | VoxFundamentos.Application/Services/FiiService.cs:466-502 | each returned entry is the detail of the ranked fund at one position of the window, reached through the two orderings and the cut |
| Ranking.FiltradosDistintos | VoxFundamentos.Application/Services/FiiService.cs:455-502 | no fund is returned twice: any two entries differ in ticker ignoring case, in P/VP rank and in DY rank |
| Ranking.MapeadoPresente | VoxFundamentos.Application/Services/FiiService.cs:486-502 | re-ordering the kept entries drops none of them |
| Ranking.CorteMelhores | VoxFundamentos.Application/Services/FiiService.cs:466-502 | when an entry is left out by the cut, exactly `top` entries are kept and each comes no later than it in (rankLevel, rankPvp, rankDy) order |
| Ranking.FiltradosMelhores | VoxFundamentos.Application/Services/FiiService.cs:466-502 | a fund of the window that is not returned means the list holds exactly `top` funds, and every returned entry is no later than that fund in (rankLevel, rankPvp, rankDy) order |
| Ranking.DistintosAposOrdenar | VoxFundamentos.Application/Services/FiiService.cs:456-464 | sorting changes neither the set of tickers nor whether they are distinct |
| Carteiras.MontarCarteira | VoxFundamentos.Application/Services/FiiService.cs:162-175 | the mutable list built, normalised and wrapped equals the portfolio specification |
| Carteiras.Parametrizada | VoxFundamentos.Application/Services/FiiService.cs:178-227 | success iff the weights are non-negative, round to 100, and the counts are non-negative with a positive total; every failure is an ArgumentException |
| Carteiras.ParametrizadaErros | VoxFundamentos.Application/Services/FiiService.cs:180-191 | the first failing check, in source order, decides the error |
| Carteiras.PorPercentualETotal | VoxFundamentos.Application/Services/FiiService.cs:229-259 | TotalFiis ≤ 0 fails first, then negative weights, then a rounded sum other than 100, with that sum in the error; once all three pass the request is the parametrised one with the apportioned counts; every failure is an ArgumentException |
| Carteiras.PorPercentualQuantidades | VoxFundamentos.Application/Services/FiiService.cs:243-258 | for valid percentages summing to 100, it is the parametrised portfolio of the apportioned counts, which sum to the total |
| Carteiras.EscolhidosDoTipoFacts | VoxFundamentos.Application/Services/FiiService.cs:147-160 | each bucket holds at most its count of funds of its type, with positive score and liquidity ≥ 800k |
| Carteiras.EscolhidosRiscoFacts | VoxFundamentos.Application/Services/FiiService.cs:147-160 | the risk bucket holds at most its count of reliable-risk funds |
| Carteiras.BucketFacts | VoxFundamentos.Application/Services/FiiService.cs:162-167 | a distributed bucket keeps tickers, tags them, and caps weights at 15 % with two decimals |
| Carteiras.TresBucketsFacts | VoxFundamentos.Application/Services/FiiService.cs:162-167 | the three distributed buckets together keep two-decimal weights |
| Carteiras.ParametrizadaSomaCem | VoxFundamentos.Application/Services/FiiService.cs:199-226 | a non-empty parametrised portfolio's weights sum to exactly 100, and TotalAtivos is its item count |
| Carteiras.Sugerida | VoxFundamentos.Application/Services/FiiService.cs:131-176 | the fixed 60/35/5 weights, with the total equal to the item count; the sum of 100 is stated by `Carteiras.SugeridaSomaCem` |
| Carteiras.SugeridaSomaCem | VoxFundamentos.Application/Services/FiiService.cs:131-176 | a non-empty suggested portfolio's weights sum to 100, with at most 13 items |
| Carteiras.ParametrizadaTeto | VoxFundamentos.Application/Services/FiiService.cs:199-226 | any item but the best one stays within 15 % |
| Carteiras.QuantidadesExcedemTotal | VoxFundamentos.Application/Services/FiiService.cs:239-258 | weights 50.005/50/0 pass the rounded-sum check, and 20000 funds are then apportioned as 10001/10000/0, summing to TotalFiis + 1 |
| CarteiraPerfis.SelecionarPerfis | VoxFundamentos.Application/Services/FiiService.cs:293-298 | the four Pick calls through one set equal the pick specification |
| CarteiraPerfis.AtribuirTodos | VoxFundamentos.Application/Services/FiiService.cs:300-305 | one profile's loop writes its label for each picked ticker into the dictionary |
| CarteiraPerfis.AtribuirLookup | VoxFundamentos.Application/Services/FiiService.cs:300-305 | a picked ticker reads the label; any other ticker reads as before |
| CarteiraPerfis.PreencherPerfis | VoxFundamentos.Application/Services/FiiService.cs:300-305 | the four loops fill exactly the ticker-to-profile dictionary |
| CarteiraPerfis.PerfisPorPapelLookup | VoxFundamentos.Application/Services/FiiService.cs:300-338 | for disjoint picks, a picked ticker maps to its own profile label, and that label forces that profile |
| CarteiraPerfis.RotuloParaPerfil | VoxFundamentos.Application/Services/FiiService.cs:337-340 | a label maps back only to the profile it names |
| CarteiraPerfis.RotuloDoPerfil | VoxFundamentos.Application/Services/FiiService.cs:300-305 | each profile label is non-blank and maps back to its profile |
| CarteiraPerfis.ComPapel | VoxFundamentos.Application/Services/FiiService.cs:322-325 | a fund with that ticker ignoring case, or none iff there is none |
| CarteiraPerfis.PorPerfis | VoxFundamentos.Application/Services/FiiService.cs:261-275 | TotalFiis ≤ 0 fails first, then round(Σ percentages, 2) ≠ 100; every failure is an ArgumentException |
| CarteiraPerfis.ObterCarteiraPorPerfis | VoxFundamentos.Application/Services/FiiService.cs:261-369 | the entry point with its loops returns exactly the profile portfolio specification |
| CarteiraPerfis.SelecoesDisjuntas | VoxFundamentos.Application/Services/FiiService.cs:293-298 | the four picks are pairwise disjoint, and none repeats a ticker |
| CarteiraPerfis.SelecoesDoPerfil | VoxFundamentos.Application/Services/FiiService.cs:288-298 | each profile's pick is an in-order part of the ranking funds of that profile, within its count |
| CarteiraPerfis.TodosSemRepetidos | VoxFundamentos.Application/Services/FiiService.cs:293-313 | the joined picks repeat no ticker |
| CarteiraPerfis.NoUniverso | VoxFundamentos.Application/Services/FiiService.cs:322-325 | every mixed-ranking entry has its fund in the universe |
| CarteiraPerfis.SelecionadosCompleto | VoxFundamentos.Application/Services/FiiService.cs:322-325 | when every ticker is found, one fund per ticker, in order |
| CarteiraPerfis.PorPerfisItens | VoxFundamentos.Application/Services/FiiService.cs:261-369 | success implies a positive total and percentages summing to 100; then one item per pick, in order, each a universe fund with that ticker, forced to the profile it was picked for |
| CarteiraPerfis.PorPerfisFalha | VoxFundamentos.Application/Services/FiiService.cs:316-320 | for valid inputs, failure iff the universe holds two mapped funds with the same ticker ignoring case (ToDictionary throws); the error names such a ticker |
| CarteiraPerfis.PorPerfisSemRepetidos | VoxFundamentos.Application/Services/FiiService.cs:293-325 | no two items share a ticker ignoring case |
| CarteiraPerfis.PorPerfisClassificados | VoxFundamentos.Application/Services/FiiService.cs:288-359 | each item's profile is the one the rules give the ranking entry it was picked from |
| CarteiraPerfis.QuantidadesPerfisSomam | VoxFundamentos.Application/Services/FiiService.cs:277-282 | non-negative percentages summing to exactly 100 give four non-negative counts that sum to the total |
| CarteiraPerfis.SelecionarAteQuotas | VoxFundamentos.Application/Services/FiiService.cs:293-298 | the picks number no more than the sum of the counts |
| CarteiraPerfis.PerfisAteTotal | VoxFundamentos.Application/Services/FiiService.cs:277-313 | for such percentages, the portfolio has at most TotalFiis funds |
| CarteiraPerfis.PercentualNegativoAceito | VoxFundamentos.Application/Services/FiiService.cs:265-275 | percentages −10/110/0/0 pass validation: there is no negativity check |
| Dividendos.ProventoMensal | VoxFundamentos.Application/Services/FiiService.cs:824-828 | 0 for a non-positive dividend; otherwise a non-negative cent value within half a cent of d/12 |
| Dividendos.DyMensal | VoxFundamentos.Application/Services/FiiService.cs:830-834 | 0 unless both inputs are positive; otherwise a cent value within half a cent of income/price·100 |
| Dividendos.ProventoDiario | VoxFundamentos.Application/Services/FiiService.cs:836-841 | 0 unless both are positive; otherwise a value with at most six decimals within 5·10⁻⁷ of income/days |
| Dividendos.QtdCotasNumeroMagico | VoxFundamentos.Application/Services/FiiService.cs:843-847 | 0 unless both are positive; otherwise the ceiling of price/income: q ≥ 1, q·income ≥ price > (q−1)·income |
| Dividendos.NumeroMagicoMinimo | VoxFundamentos.Application/Services/FiiService.cs:843-847 | any share count whose income covers a share is at least the magic number |
| Dividendos.ValorParaNumeroMagico | VoxFundamentos.Application/Services/FiiService.cs:849-853 | 0 unless both are positive; otherwise a cent value within half a cent of q·price |
| Dividendos.NumeroMagicoCobreCota | VoxFundamentos.Application/Services/FiiService.cs:843-853 | at the magic number, the position costs at least one share, and its monthly income buys one more |

## Left out

- `DownloadHtmlAsync` (HTTP, `Task.Delay` and `Random` jitter) is not modelled; its result is a parameter of `Repository.Carregar`. A non-retryable status still lands in the `catch` at FundamentusFiiScraper.cs:60 and is retried.
- `async`/`await`, `SemaphoreSlim` and `Task.WhenAll` are modelled as a sequential map. `WhenAll` keeps order.
- `ObterDividendoPorCotaAsync` is not declared in the repository interface. It is an oracle parameter `dividendo: string -> Option<real>`.
- `IMemoryCache` is modelled as a `map` field with a stored timestamp. The clock is a `now` parameter of `Repository.FiiRepository.ObterTodos`. The library's `null` result (`?? Array.Empty`) cannot occur in the model.
- `FiiMapper.ToDto` and the `FiiDto` shapes are not modelled. A detail keeps the `Fii` itself, plus the profile, reasons and dividend (`Motivos.Detalhar`).
- `ObterFiisAsync` (FiiService.cs:30-45) and the service's `ObterPorPapelAsync` (FiiService.cs:47-54) are not modelled beyond the repository calls. They only sort or take and then map to DTOs.
- Controllers, `Program.cs`, dependency injection, `BancoCentralSgsClient` and `IndicadorEconomicoService` are not modelled. The Selic rate is a parameter of `Ranking.Filtrados`.
- ScoreRules.Normalizar: the Normalization Form D of Unicode Standard Annex #15 is modelled only for Latin-1 letters with accents, plus removal of combining marks.
- The pt-BR and invariant `TryParse` calls are the abstract functions of `Scraper.Parsers`. Only the guard structure around them is modelled.
- HtmlAgilityPack XPath and `WebUtility.HtmlDecode` are abstracted to `Scraper.HtmlTable`: one optional table with header texts and optional cell rows, already decoded.
- `decimal.ToString` in the reason texts is a `fmt` parameter. Exception message texts are replaced by `Erro` constructors.
- The `OrdinalIgnoreCase` dictionaries are association lists keyed by `ToUpper`. Case folding is modelled only for ASCII and Latin-1 letters.
- 32-bit `int` overflow is not modelled: counts, ranks and the `(int)Math.Ceiling` cast of `Dividendos.QtdCotasNumeroMagico` use unbounded integers. The same holds for `decimal`'s 28-digit precision.
- Carteiras.Parametrizada and Carteiras.PorPercentualETotal are functions. Their mutable `List` work is in `Carteiras.MontarCarteira` and `Pesos.NormalizarParaCem`.
- The two fallbacks for empty reasons (FiiService.cs:343-345 in `Motivos.Detalhar` and FiiService.cs:418-419 in `Motivos.CalcularTipoEMotivos`) are written out, but neither can fire. `Motivos.TipoEMotivosFacts` shows the cleaned reasons are never empty, because the profile reasons are never blank.
- Every service function receives one `all` snapshot of the listing per request. The source calls `ObterTodosAsync` again for each ranking (FiiService.cs:514) and for `todosFiis` (FiiService.cs:316). If the cache expires between these calls, the listings can differ. `.Where(mapFii.ContainsKey)` (FiiService.cs:322-325) would then drop picks silently. `CarteiraPerfis.PorPerfisItens` relies on the single snapshot.
- CarteiraPerfis.RotuloParaPerfil returns `None` for a text that is no profile label. The source would pass such a text on, but only labels are ever written.
- The `Calcular*` dividend helpers have no callers in the service. They are modelled on their own, and `CalcularProventoDiario` takes the days in the month as a parameter instead of reading `DateTime.Now`.
- The rounded-sum check lets weights through whose exact sum is not 100. `Carteiras.QuantidadesExcedemTotal` shows a parametrised count total one above `TotalFiis`; the count lemmas assume an exact sum of 100.
