/**
 * The read-only queries of the service: per-type and mixed rankings, the two
 * risk lists, the anchoring list and the Selic-banded dual-rank filter. Each is
 * a LINQ pipeline over the repository's full list, which is a parameter here.
 */
module Ranking {
  import opened Wrappers
  import opened Decimals
  import opened Text
  import opened Seqs
  import opened Sorting
  import opened Domain
  import opened ScoreRules
  import opened Motivos

  /** DefaultTop: a non-positive `top` means 10. */
  const DefaultTop := 10

  function TopEfetivo(top: int): (t: int)
    ensures t > 0
    ensures top > 0 ==> t == top
    ensures top <= 0 ==> t == DefaultTop
  {
    if top <= 0 then DefaultTop else top
  }

  // ---------------------------------------------------------------------
  // Ordering by score, then liquidity, both descending
  // ---------------------------------------------------------------------

  /** OrderByDescending(Score).ThenByDescending(Liquidez) as an ascending key. */
  function ChaveRanking(x: FiiRanking): seq<real> {
    [-x.score, -x.liquidez]
  }

  /** a may come before b: higher score, or the same score and at least the liquidity. */
  predicate Precede(a: FiiRanking, b: FiiRanking) {
    a.score > b.score || (a.score == b.score && a.liquidez >= b.liquidez)
  }

  predicate OrdenadoPorScore(r: seq<FiiRanking>) {
    forall a, b | 0 <= a < b < |r| :: Precede(r[a], r[b])
  }

  lemma {:induction false} ChaveRankingPrecede(a: FiiRanking, b: FiiRanking)
    requires LexLe(ChaveRanking(a), ChaveRanking(b))
    ensures Precede(a, b)
  {
    var ka, kb := ChaveRanking(a), ChaveRanking(b);
    if ka != kb && ka[0] == kb[0] {
      assert LexLess(ka[1..], kb[1..]);
      assert ka[1..][0] < kb[1..][0];
    }
  }

  /** The top n of xs in ranking order. */
  function TopOrdenado(xs: seq<FiiRanking>, n: int): (r: seq<FiiRanking>)
    ensures |r| <= |xs| && (n <= 0 ==> |r| == 0) && (n > 0 ==> |r| <= n)
  {
    Take(SortByKey(xs, ChaveRanking), n)
  }

  /** The top n are sorted and come from xs. */
  lemma {:induction false} TopOrdenadoFacts(xs: seq<FiiRanking>, n: int)
    ensures var r := TopOrdenado(xs, n);
      OrdenadoPorScore(r) && forall i | 0 <= i < |r| :: r[i] in xs
  {
    var s := SortByKey(xs, ChaveRanking);
    var r := TopOrdenado(xs, n);
    forall a, b | 0 <= a < b < |r| ensures Precede(r[a], r[b]) {
      ChaveRankingPrecede(s[a], s[b]);
    }
    forall i | 0 <= i < |r| ensures r[i] in xs {
      assert r[i] == s[i];
      assert s[i] in multiset(xs);
    }
  }

  /** Whatever the top n leave out ranks no higher than each of them, and the top n are full. */
  lemma {:induction false} TopOrdenadoMelhores(xs: seq<FiiRanking>, n: int, x: FiiRanking)
    requires n >= 0 && x in xs && x !in TopOrdenado(xs, n)
    ensures |TopOrdenado(xs, n)| == n
    ensures forall a | 0 <= a < n :: Precede(TopOrdenado(xs, n)[a], x)
  {
    var s := SortByKey(xs, ChaveRanking);
    assert x in multiset(s);
    assert x in s;
    var r := TopOrdenado(xs, n);
    assert s[..|s|] == s;
    assert n <= |s|;
    assert r == s[..n];
    TakeKeepsBest(s, ChaveRanking, n, x);
    forall a | 0 <= a < n ensures Precede(r[a], x) {
      ChaveRankingPrecede(s[a], x);
    }
  }

  // ---------------------------------------------------------------------
  // ObterRankingPorTipoAsync, ObterRankingMistoAsync, the risk lists
  // ---------------------------------------------------------------------

  function DoTipo(tipo: Tipo): Fii -> bool {
    (f: Fii) => DetectarTipo(f.segmento) == tipo
  }

  function ComoRanking(tipo: Tipo): Fii -> FiiRanking {
    (f: Fii) => ParaRanking(f, tipo)
  }

  predicate Pontuado(x: FiiRanking) {
    x.score > 0.0
  }

  /** The funds of one type, scored as that type, with a positive score. */
  function Candidatos(all: seq<Fii>, tipo: Tipo): seq<FiiRanking> {
    Filter(Map(Filter(all, DoTipo(tipo)), ComoRanking(tipo)), Pontuado)
  }

  /** ObterRankingPorTipoAsync. */
  function RankingPorTipo(all: seq<Fii>, tipo: Tipo, top: int): (r: seq<FiiRanking>)
    ensures |r| <= TopEfetivo(top)
  {
    TopOrdenado(Candidatos(all, tipo), TopEfetivo(top))
  }

  /** A candidate is a fund of the list, of that type, scored as that type, with a positive score. */
  lemma {:induction false} CandidatosFacts(all: seq<Fii>, tipo: Tipo)
    ensures forall x | x in Candidatos(all, tipo) ::
      && x.tipo == tipo && x.score > 0.0
      && exists f | f in all :: DetectarTipo(f.segmento) == tipo && x == ParaRanking(f, tipo)
  {
    var doTipo := Filter(all, DoTipo(tipo));
    var m := Map(doTipo, ComoRanking(tipo));
    forall x | x in Candidatos(all, tipo)
      ensures x.tipo == tipo && x.score > 0.0
      ensures exists f | f in all :: DetectarTipo(f.segmento) == tipo && x == ParaRanking(f, tipo)
    {
      var i :| 0 <= i < |m| && m[i] == x;
      assert doTipo[i] in all && DoTipo(tipo)(doTipo[i]);
    }
  }

  /**
   * The per-type ranking holds at most `top` (10 when `top` <= 0) funds of the
   * requested type with a positive score, by score then liquidity, descending.
   */
  lemma {:induction false} RankingPorTipoFacts(all: seq<Fii>, tipo: Tipo, top: int)
    ensures var r := RankingPorTipo(all, tipo, top);
      && |r| <= TopEfetivo(top)
      && OrdenadoPorScore(r)
      && forall i | 0 <= i < |r| :: r[i] in Candidatos(all, tipo) && r[i].tipo == tipo && r[i].score > 0.0
  {
    TopOrdenadoFacts(Candidatos(all, tipo), TopEfetivo(top));
    CandidatosFacts(all, tipo);
  }

  /** A candidate missing from the ranking ranks no higher than any fund in it, which is then full. */
  lemma {:induction false} RankingPorTipoMelhores(all: seq<Fii>, tipo: Tipo, top: int, x: FiiRanking)
    requires x in Candidatos(all, tipo) && x !in RankingPorTipo(all, tipo, top)
    ensures |RankingPorTipo(all, tipo, top)| == TopEfetivo(top)
    ensures forall a | 0 <= a < TopEfetivo(top) :: Precede(RankingPorTipo(all, tipo, top)[a], x)
  {
    TopOrdenadoMelhores(Candidatos(all, tipo), TopEfetivo(top), x);
  }

  /** How many of each type the mixed ranking draws: max(80, top). */
  function PorTipoMisto(top: int): (n: int)
    ensures n >= 80 && n >= TopEfetivo(top)
  {
    Max(80, TopEfetivo(top))
  }

  /** ObterRankingMistoAsync: both per-type rankings merged and cut to `top`. */
  function RankingMisto(all: seq<Fii>, top: int): (r: seq<FiiRanking>)
    ensures |r| <= TopEfetivo(top)
  {
    var per := PorTipoMisto(top);
    TopOrdenado(RankingPorTipo(all, Tijolo, per) + RankingPorTipo(all, Papel, per), TopEfetivo(top))
  }

  /** The mixed ranking is sorted the same way and holds only TIJOLO and PAPEL funds from their rankings. */
  lemma {:induction false} RankingMistoFacts(all: seq<Fii>, top: int)
    ensures var r := RankingMisto(all, top);
      var per := PorTipoMisto(top);
      && |r| <= TopEfetivo(top)
      && OrdenadoPorScore(r)
      && forall i | 0 <= i < |r| ::
           && (r[i] in RankingPorTipo(all, Tijolo, per) || r[i] in RankingPorTipo(all, Papel, per))
           && (r[i].tipo == Tijolo || r[i].tipo == Papel)
           && r[i].score > 0.0
  {
    var per := PorTipoMisto(top);
    var t, p := RankingPorTipo(all, Tijolo, per), RankingPorTipo(all, Papel, per);
    RankingPorTipoFacts(all, Tijolo, per);
    RankingPorTipoFacts(all, Papel, per);
    TopDeDois(t, p, TopEfetivo(top), TijoloOuPapelPontuado);
    assert RankingMisto(all, top) == TopOrdenado(t + p, TopEfetivo(top));
  }

  /** An entry of the mixed ranking: a TIJOLO or PAPEL fund with a positive score. */
  predicate TijoloOuPapelPontuado(x: FiiRanking) {
    (x.tipo == Tijolo || x.tipo == Papel) && x.score > 0.0
  }

  /** The top of two lists joined is sorted, and each entry comes from one of them and keeps what both share. */
  lemma {:induction false} TopDeDois(t: seq<FiiRanking>, p: seq<FiiRanking>, n: int, q: FiiRanking -> bool)
    requires forall i | 0 <= i < |t| :: q(t[i])
    requires forall i | 0 <= i < |p| :: q(p[i])
    ensures var r := TopOrdenado(t + p, n);
      && OrdenadoPorScore(r)
      && forall i | 0 <= i < |r| :: (r[i] in t || r[i] in p) && q(r[i])
  {
    var r := TopOrdenado(t + p, n);
    TopOrdenadoFacts(t + p, n);
    forall i | 0 <= i < |r| ensures (r[i] in t || r[i] in p) && q(r[i]) {
      var j :| 0 <= j < |t + p| && (t + p)[j] == r[i];
      if j < |t| {
        assert r[i] == t[j];
      } else {
        assert r[i] == p[j - |t|];
      }
    }
  }

  /** The base the risk lists draw from: the mixed ranking of max(120, top * 8). */
  function BaseRisco(all: seq<Fii>, top: int): seq<FiiRanking> {
    RankingMisto(all, Max(120, TopEfetivo(top) * 8))
  }

  /** ObterRiscoConfiavelAsync. */
  function RiscoConfiavel(all: seq<Fii>, top: int): (r: seq<FiiRanking>)
    ensures |r| <= TopEfetivo(top)
  {
    TopOrdenado(Filter(BaseRisco(all, top), IsRiscoConfiavel), TopEfetivo(top))
  }

  predicate EhRiscoElevado(x: FiiRanking) {
    ClassificarPerfil(Some(x)) == RiscoElevado
  }

  /** ObterRiscoElevadoAsync. */
  function RiscoElevadoLista(all: seq<Fii>, top: int): (r: seq<FiiRanking>)
    ensures |r| <= TopEfetivo(top)
  {
    TopOrdenado(Filter(BaseRisco(all, top), EhRiscoElevado), TopEfetivo(top))
  }

  /** The top n of a filtered list are sorted, meet the filter and come from the list. */
  lemma {:induction false} TopDoFiltro(xs: seq<FiiRanking>, p: FiiRanking -> bool, n: int)
    ensures var r := TopOrdenado(Filter(xs, p), n);
      OrdenadoPorScore(r) && forall i | 0 <= i < |r| :: p(r[i]) && r[i] in xs
  {
    TopOrdenadoFacts(Filter(xs, p), n);
  }

  /** The trusted-risk list is sorted, bounded, and holds only trusted funds of its window. */
  lemma {:induction false} RiscoConfiavelFacts(all: seq<Fii>, top: int)
    ensures var c := RiscoConfiavel(all, top);
      OrdenadoPorScore(c) && forall i | 0 <= i < |c| :: IsRiscoConfiavel(c[i]) && c[i] in BaseRisco(all, top)
  {
    TopDoFiltro(BaseRisco(all, top), IsRiscoConfiavel, TopEfetivo(top));
  }

  /** The high-risk list is sorted, bounded, and holds only high-risk funds of its window. */
  lemma {:induction false} RiscoElevadoFacts(all: seq<Fii>, top: int)
    ensures var e := RiscoElevadoLista(all, top);
      OrdenadoPorScore(e) && forall i | 0 <= i < |e| :: EhRiscoElevado(e[i]) && e[i] in BaseRisco(all, top)
  {
    TopDoFiltro(BaseRisco(all, top), EhRiscoElevado, TopEfetivo(top));
  }

  // ---------------------------------------------------------------------
  // ObterFiisAncoragemAsync
  // ---------------------------------------------------------------------

  /** IsShopping: a non-blank segment whose trimmed, lower-cased text contains "shopping". */
  predicate IsShopping(segmento: string) {
    if IsBlank(segmento) then false
    else Contains(ToLower(Trim(segmento)), "shopping")
  }

  /** The blank guard of IsShopping is redundant: a blank label trims to "", which contains nothing. */
  lemma {:induction false} IsShoppingSemGuarda(segmento: string)
    ensures IsShopping(segmento) <==> Contains(ToLower(Trim(segmento)), "shopping")
  {
    if IsBlank(segmento) {
      assert ToLower(Trim(segmento)) == "";
      EmptyContainsNothing("shopping");
    }
  }

  predicate CriterioAncoragem(f: Fii) {
    && f.liquidez >= 1500000.0
    && f.valorMercado >= 1000000000.0
    && f.pvp >= 0.98
    && f.vacanciaMedia <= 10.0
    && !IsShopping(f.segmento)
  }

  /** OrderBy(Papel, StringComparer.OrdinalIgnoreCase): the upper-cased code points. */
  function ChavePapel(f: Fii): seq<real> {
    var u := ToUpper(f.papel);
    seq(|u|, i requires 0 <= i < |u| => (u[i] as int) as real)
  }

  /** ObterFiisAncoragemAsync (FiiAncoragemDto carries the fields of Fii). */
  function Ancoragem(all: seq<Fii>): (r: seq<Fii>)
    ensures |r| <= |all|
  {
    SortByKey(Filter(all, CriterioAncoragem), ChavePapel)
  }

  /**
   * The anchoring list is exactly the funds that meet the five criteria,
   * ordered by ticker ignoring case.
   */
  lemma {:induction false} AncoragemFacts(all: seq<Fii>)
    ensures var r := Ancoragem(all);
      && (forall i | 0 <= i < |r| :: CriterioAncoragem(r[i]) && r[i] in all)
      && (forall f | f in all && CriterioAncoragem(f) :: f in r)
      && (forall a, b | 0 <= a < b < |r| :: LexLe(ChavePapel(r[a]), ChavePapel(r[b])))
  {
    var c := Filter(all, CriterioAncoragem);
    var r := Ancoragem(all);
    forall i | 0 <= i < |r| ensures CriterioAncoragem(r[i]) && r[i] in all {
      assert r[i] in multiset(c);
    }
    forall f | f in all && CriterioAncoragem(f) ensures f in r {
      var i :| 0 <= i < |all| && all[i] == f;
      assert f in c;
      assert f in multiset(r);
    }
  }

  // ---------------------------------------------------------------------
  // ObterFiisFiltradosAsync
  // ---------------------------------------------------------------------

  predicate CriterioFiltro(selic: real, f: Fii) {
    && f.dividendYield >= selic - 3.0
    && f.dividendYield <= 20.0
    && f.pvp >= 0.50
    && f.pvp <= 1.00
    && f.liquidez >= 400000.0
    && f.vacanciaMedia <= 100.0
  }

  function NoFiltro(selic: real): Fii -> bool {
    (f: Fii) => CriterioFiltro(selic, f)
  }

  function ChavePvp(f: Fii): seq<real> {
    [f.pvp]
  }

  function ChaveDy(f: Fii): seq<real> {
    [-f.dividendYield]
  }

  function PapelDe(f: Fii): string {
    f.papel
  }

  /** The first position of a ticker, ignoring case, or -1. */
  function PosicaoIgnoreCase(ps: seq<string>, p: string): (i: int)
    ensures -1 <= i < |ps|
    ensures i >= 0 ==> ToUpper(ps[i]) == ToUpper(p) && forall j | 0 <= j < i :: ToUpper(ps[j]) != ToUpper(p)
    ensures i == -1 ==> forall j | 0 <= j < |ps| :: ToUpper(ps[j]) != ToUpper(p)
  {
    if |ps| == 0 then -1
    else if ToUpper(ps[0]) == ToUpper(p) then 0
    else
      var k := PosicaoIgnoreCase(ps[1..], p);
      assert forall j | 1 <= j < |ps| :: ps[j] == ps[1..][j - 1];
      if k == -1 then -1 else k + 1
  }

  /** Select((f, index) => index + 1).ToDictionary(Papel)[papel]: one-based position in `ordenados`. */
  function Rank(ordenados: seq<Fii>, f: Fii): int {
    PosicaoIgnoreCase(Map(ordenados, PapelDe), f.papel) + 1
  }

  /** ToDictionary over an ignore-case comparer: the first key added twice, if any. */
  function RepetidoPor(ps: seq<string>, vistos: set<string>): (r: Option<string>)
    ensures r.Some? ==> r.value in ps
  {
    if |ps| == 0 then None
    else if ToUpper(ps[0]) in vistos then Some(ps[0])
    else RepetidoPor(ps[1..], vistos + {ToUpper(ps[0])})
  }

  predicate DistintosIgnoreCase(ps: seq<string>) {
    forall i, j | 0 <= i < j < |ps| :: ToUpper(ps[i]) != ToUpper(ps[j])
  }

  /** ToDictionary throws exactly when a key was already seen or two keys coincide. */
  lemma {:induction false} RepetidoPorFacts(ps: seq<string>, vistos: set<string>)
    ensures RepetidoPor(ps, vistos).None? <==>
      DistintosIgnoreCase(ps) && forall i | 0 <= i < |ps| :: ToUpper(ps[i]) !in vistos
  {
    if |ps| > 0 {
      var v := vistos + {ToUpper(ps[0])};
      RepetidoPorFacts(ps[1..], v);
      assert forall i | 1 <= i < |ps| :: ps[i] == ps[1..][i - 1];
    }
  }

  /** A fund with its P/VP rank, DY rank and their mean. */
  datatype Ranqueado = Ranqueado(fii: Fii, rankPvp: int, rankDy: int, rankLevel: real)

  function RanquearCom(porPvp: seq<Fii>, porDy: seq<Fii>): Fii -> Ranqueado {
    (f: Fii) => var rp, rd := Rank(porPvp, f), Rank(porDy, f);
      Ranqueado(f, rp, rd, (rp + rd) as real / 2.0)
  }

  /** The ranked base, in base order. */
  function Ranquear(base: seq<Fii>): seq<Ranqueado> {
    Map(base, RanquearCom(SortByKey(base, ChavePvp), SortByKey(base, ChaveDy)))
  }

  /** OrderBy(RankLevel).ThenBy(RankPvp).ThenBy(RankDy). */
  function ChaveNivel(x: Ranqueado): seq<real> {
    [x.rankLevel, x.rankPvp as real, x.rankDy as real]
  }

  function ChaveFiltrado(x: FiiFiltrado): seq<real> {
    [x.rankLevel, x.rankPvp as real, x.rankDy as real]
  }

  /**
   * The detailed fund with its ranks put back. The source finds the detail by
   * ticker in a dictionary built from the details; tickers are distinct at
   * that point, so that is the detail of the same fund.
   */
  function ComoFiltrado(dividendo: string -> Option<real>, fmt: real -> string): Ranqueado -> FiiFiltrado {
    (x: Ranqueado) => FiiFiltrado(Detalhar(dividendo, x.fii, None, fmt), x.rankPvp, x.rankDy, x.rankLevel)
  }

  /** The funds inside the Selic-banded window. */
  function BaseFiltro(all: seq<Fii>, selic: real): seq<Fii> {
    Filter(all, NoFiltro(selic))
  }

  /** ObterFiisFiltradosAsync; a ticker repeated ignoring case makes ToDictionary throw. */
  function Filtrados(all: seq<Fii>, selic: real, top: int, dividendo: string -> Option<real>, fmt: real -> string): (r: Result<seq<FiiFiltrado>, Erro>)
    ensures |BaseFiltro(all, selic)| == 0 ==> r == Success([])
    ensures r.Failure? ==> r.error.PapelDuplicado? && r.error.IsArgumentException()
  {
    var base := BaseFiltro(all, selic);
    if |base| == 0 then Success([])
    else
      match RepetidoPor(Map(SortByKey(base, ChavePvp), PapelDe), {})
      case Some(p) => Failure(PapelDuplicado(p))
      case None =>
        var topBase := Take(SortByKey(Ranquear(base), ChaveNivel), TopEfetivo(top));
        Success(SortByKey(Map(topBase, ComoFiltrado(dividendo, fmt)), ChaveFiltrado))
  }

  /** An empty window gives an empty list. */
  lemma {:induction false} FiltradosVazio(all: seq<Fii>, selic: real, top: int, dividendo: string -> Option<real>, fmt: real -> string)
    requires forall f | f in all :: !CriterioFiltro(selic, f)
    ensures Filtrados(all, selic, top, dividendo, fmt) == Success([])
  {
  }

  /** Distinct tickers stay distinct under any reordering by a sort. */
  lemma {:induction false} DistintosAposOrdenar(s: seq<Fii>, key: Fii -> seq<real>)
    ensures DistintosIgnoreCase(Map(SortByKey(s, key), PapelDe)) <==> DistintosIgnoreCase(Map(s, PapelDe))
  {
    var o := Order(s, key);
    var r := SortByKey(s, key);
    OrderFacts(s, key);
    if DistintosIgnoreCase(Map(s, PapelDe)) {
      forall i, j | 0 <= i < j < |r| ensures ToUpper(r[i].papel) != ToUpper(r[j].papel) {
        var a, b := o[i], o[j];
        if a < b {
          assert ToUpper(Map(s, PapelDe)[a]) != ToUpper(Map(s, PapelDe)[b]);
        } else {
          assert ToUpper(Map(s, PapelDe)[b]) != ToUpper(Map(s, PapelDe)[a]);
        }
      }
    }
    if DistintosIgnoreCase(Map(r, PapelDe)) {
      forall i, j | 0 <= i < j < |s| ensures ToUpper(s[i].papel) != ToUpper(s[j].papel) {
        assert i in o && j in o;
        var a :| 0 <= a < |o| && o[a] == i;
        var b :| 0 <= b < |o| && o[b] == j;
        if a < b {
          assert ToUpper(Map(r, PapelDe)[a]) != ToUpper(Map(r, PapelDe)[b]);
        } else {
          assert ToUpper(Map(r, PapelDe)[b]) != ToUpper(Map(r, PapelDe)[a]);
        }
      }
    }
  }

  /** The filter fails exactly when two funds of the window share a ticker ignoring case. */
  lemma {:induction false} FiltradosFalha(all: seq<Fii>, selic: real, top: int, dividendo: string -> Option<real>, fmt: real -> string)
    ensures Filtrados(all, selic, top, dividendo, fmt).Failure? <==> !DistintosIgnoreCase(Map(BaseFiltro(all, selic), PapelDe))
  {
    var base := BaseFiltro(all, selic);
    RepetidoPorFacts(Map(SortByKey(base, ChavePvp), PapelDe), {});
    DistintosAposOrdenar(base, ChavePvp);
  }

  /**
   * With distinct tickers, a fund's rank is one plus its own position in the
   * sorted list, so the ranks of the N funds are distinct and lie in 1..N: a
   * permutation of 1..N.
   */
  lemma {:induction false} RankPosicao(s: seq<Fii>, key: Fii -> seq<real>, i: nat)
    requires i < |s| && DistintosIgnoreCase(Map(s, PapelDe))
    ensures 1 <= Rank(SortByKey(s, key), s[i]) <= |s|
    ensures SortByKey(s, key)[Rank(SortByKey(s, key), s[i]) - 1] == s[i]
  {
    var o := Order(s, key);
    var r := SortByKey(s, key);
    var ps := Map(r, PapelDe);
    OrderFacts(s, key);
    DistintosAposOrdenar(s, key);
    assert i in o;
    var a :| 0 <= a < |o| && o[a] == i;
    assert ps[a] == s[i].papel;
    var k := PosicaoIgnoreCase(ps, s[i].papel);
    assert k >= 0 && k <= a;
  }

  lemma {:induction false} RanksDistintos(s: seq<Fii>, key: Fii -> seq<real>, i: nat, j: nat)
    requires i < j < |s| && DistintosIgnoreCase(Map(s, PapelDe))
    ensures Rank(SortByKey(s, key), s[i]) != Rank(SortByKey(s, key), s[j])
  {
    RankPosicao(s, key, i);
    RankPosicao(s, key, j);
    assert Map(s, PapelDe)[i] == s[i].papel && Map(s, PapelDe)[j] == s[j].papel;
  }

  /** Two positions of the window are two funds, with different tickers and different ranks. */
  lemma {:induction false} RanqueadosDistintos(base: seq<Fii>, i: nat, j: nat)
    requires i < j < |base| && DistintosIgnoreCase(Map(base, PapelDe))
    ensures var rk := Ranquear(base);
      && ToUpper(rk[i].fii.papel) != ToUpper(rk[j].fii.papel)
      && rk[i].rankPvp != rk[j].rankPvp && rk[i].rankDy != rk[j].rankDy
  {
    RanksDistintos(base, ChavePvp, i, j);
    RanksDistintos(base, ChaveDy, i, j);
    assert ToUpper(Map(base, PapelDe)[i]) != ToUpper(Map(base, PapelDe)[j]);
  }

  /** Each ranked fund carries both of its ranks, each within 1..N, and their mean. */
  lemma {:induction false} RanqueadoFacts(base: seq<Fii>, j: nat)
    requires j < |base| && DistintosIgnoreCase(Map(base, PapelDe))
    ensures var x := Ranquear(base)[j];
      && x.fii == base[j]
      && 1 <= x.rankPvp <= |base| && 1 <= x.rankDy <= |base|
      && x.rankLevel == (x.rankPvp + x.rankDy) as real / 2.0
  {
    RankPosicao(base, ChavePvp, j);
    RankPosicao(base, ChaveDy, j);
  }

  /** What comes out of the sort, cut and second sort is the image of a ranked fund. */
  lemma {:induction false} OrigemFiltrado(rk: seq<Ranqueado>, t: int, g: Ranqueado -> FiiFiltrado, y: FiiFiltrado)
    requires y in SortByKey(Map(Take(SortByKey(rk, ChaveNivel), t), g), ChaveFiltrado)
    ensures exists j | 0 <= j < |rk| :: y == g(rk[j])
  {
    var topBase := Take(SortByKey(rk, ChaveNivel), t);
    var m := Map(topBase, g);
    assert y in multiset(SortByKey(m, ChaveFiltrado));
    assert y in multiset(m);
    var k :| 0 <= k < |m| && m[k] == y;
    assert topBase[k] in multiset(SortByKey(rk, ChaveNivel));
    var j :| 0 <= j < |rk| && rk[j] == topBase[k];
  }

  /**
   * Each returned fund lies in the window and carries its own P/VP and DY
   * ranks in that window (each within 1..N for its N funds) and their mean;
   * the list is ordered by (RankLevel, RankPvp, RankDy) and holds min(top, N)
   * funds.
   */
  lemma {:induction false} FiltradosFacts(all: seq<Fii>, selic: real, top: int, dividendo: string -> Option<real>, fmt: real -> string)
    requires Filtrados(all, selic, top, dividendo, fmt).Success?
    ensures var r := Filtrados(all, selic, top, dividendo, fmt).value;
      var base := BaseFiltro(all, selic);
      && |r| == (if TopEfetivo(top) < |base| then TopEfetivo(top) else |base|)
      && (forall a, b | 0 <= a < b < |r| :: LexLe(ChaveFiltrado(r[a]), ChaveFiltrado(r[b])))
      && forall i | 0 <= i < |r| ::
           var f := r[i].detalhe.fii;
           && f in all && CriterioFiltro(selic, f)
           && r[i].detalhe == Detalhar(dividendo, f, None, fmt)
           && r[i].rankPvp == Rank(SortByKey(base, ChavePvp), f)
           && r[i].rankDy == Rank(SortByKey(base, ChaveDy), f)
           && 1 <= r[i].rankPvp <= |base| && 1 <= r[i].rankDy <= |base|
           && r[i].rankLevel == (r[i].rankPvp + r[i].rankDy) as real / 2.0
  {
    var base := BaseFiltro(all, selic);
    if |base| > 0 {
      FiltradosFalha(all, selic, top, dividendo, fmt);
      var rk := Ranquear(base);
      var g := ComoFiltrado(dividendo, fmt);
      var r := SortByKey(Map(Take(SortByKey(rk, ChaveNivel), TopEfetivo(top)), g), ChaveFiltrado);
      forall i | 0 <= i < |r|
        ensures var f := r[i].detalhe.fii;
          && f in all && CriterioFiltro(selic, f)
          && r[i].detalhe == Detalhar(dividendo, f, None, fmt)
          && r[i].rankPvp == Rank(SortByKey(base, ChavePvp), f)
          && r[i].rankDy == Rank(SortByKey(base, ChaveDy), f)
          && 1 <= r[i].rankPvp <= |base| && 1 <= r[i].rankDy <= |base|
          && r[i].rankLevel == (r[i].rankPvp + r[i].rankDy) as real / 2.0
      {
        OrigemFiltrado(rk, TopEfetivo(top), g, r[i]);
        var j :| 0 <= j < |rk| && r[i] == g(rk[j]);
        RanqueadoFacts(base, j);
        assert base[j] in all && NoFiltro(selic)(base[j]);
      }
    }
  }

  /** The sort, cut and second sort take each returned entry from its own position of the window. */
  lemma {:induction false} OrigemPorIndice(base: seq<Fii>, t: int, g: Ranqueado -> FiiFiltrado, i: nat)
    requires i < |SortByKey(Map(Take(SortByKey(Ranquear(base), ChaveNivel), t), g), ChaveFiltrado)|
    ensures var rk := Ranquear(base);
      var s := SortByKey(rk, ChaveNivel);
      var m := Map(Take(s, t), g);
      var k := Order(m, ChaveFiltrado)[i];
      && k < |Take(s, t)|
      && Order(rk, ChaveNivel)[k] < |base|
      && SortByKey(m, ChaveFiltrado)[i] == g(rk[Order(rk, ChaveNivel)[k]])
      && rk[Order(rk, ChaveNivel)[k]].fii == base[Order(rk, ChaveNivel)[k]]
  {
    var rk := Ranquear(base);
    var s := SortByKey(rk, ChaveNivel);
    var tb := Take(s, t);
    var m := Map(tb, g);
    var k := Order(m, ChaveFiltrado)[i];
    assert tb[k] == s[k];
  }

  /**
   * No two returned entries are the same fund: their tickers differ ignoring
   * case, and so do their P/VP ranks and their DY ranks.
   */
  lemma {:induction false} FiltradosDistintos(all: seq<Fii>, selic: real, top: int, dividendo: string -> Option<real>, fmt: real -> string)
    requires Filtrados(all, selic, top, dividendo, fmt).Success?
    ensures var r := Filtrados(all, selic, top, dividendo, fmt).value;
      forall a, b | 0 <= a < b < |r| ::
        && ToUpper(r[a].detalhe.fii.papel) != ToUpper(r[b].detalhe.fii.papel)
        && r[a].rankPvp != r[b].rankPvp && r[a].rankDy != r[b].rankDy
  {
    var base := BaseFiltro(all, selic);
    if |base| > 0 {
      FiltradosFalha(all, selic, top, dividendo, fmt);
      var rk := Ranquear(base);
      var g := ComoFiltrado(dividendo, fmt);
      var s := SortByKey(rk, ChaveNivel);
      var m := Map(Take(s, TopEfetivo(top)), g);
      var r := SortByKey(m, ChaveFiltrado);
      var o1, o2 := Order(rk, ChaveNivel), Order(m, ChaveFiltrado);
      OrderFacts(rk, ChaveNivel);
      OrderFacts(m, ChaveFiltrado);
      forall a, b | 0 <= a < b < |r|
        ensures && ToUpper(r[a].detalhe.fii.papel) != ToUpper(r[b].detalhe.fii.papel)
                && r[a].rankPvp != r[b].rankPvp && r[a].rankDy != r[b].rankDy
      {
        OrigemPorIndice(base, TopEfetivo(top), g, a);
        OrigemPorIndice(base, TopEfetivo(top), g, b);
        var ja, jb := o1[o2[a]], o1[o2[b]];
        assert o2[a] != o2[b];
        assert ja != jb;
        assert r[a] == g(rk[ja]) && r[b] == g(rk[jb]);
        if ja < jb {
          RanqueadosDistintos(base, ja, jb);
        } else {
          RanqueadosDistintos(base, jb, ja);
        }
      }
    }
  }

  /**
   * The cut keeps the best: a fund of the window that is not returned means the
   * list is full (`top` funds), and every returned entry comes no later than it
   * in (RankLevel, RankPvp, RankDy) order.
   */
  lemma {:induction false} FiltradosMelhores(all: seq<Fii>, selic: real, top: int, dividendo: string -> Option<real>, fmt: real -> string, j: nat)
    requires Filtrados(all, selic, top, dividendo, fmt).Success?
    requires j < |BaseFiltro(all, selic)|
    requires forall i | 0 <= i < |Filtrados(all, selic, top, dividendo, fmt).value| ::
      Filtrados(all, selic, top, dividendo, fmt).value[i].detalhe.fii != BaseFiltro(all, selic)[j]
    ensures |Filtrados(all, selic, top, dividendo, fmt).value| == TopEfetivo(top)
    ensures forall i | 0 <= i < |Filtrados(all, selic, top, dividendo, fmt).value| ::
      LexLe(ChaveFiltrado(Filtrados(all, selic, top, dividendo, fmt).value[i]), ChaveNivel(Ranquear(BaseFiltro(all, selic))[j]))
  {
    var base := BaseFiltro(all, selic);
    var rk := Ranquear(base);
    var g := ComoFiltrado(dividendo, fmt);
    var r := SortByKey(Map(Take(SortByKey(rk, ChaveNivel), TopEfetivo(top)), g), ChaveFiltrado);
    assert r == Filtrados(all, selic, top, dividendo, fmt).value;
    assert rk[j].fii == base[j];
    assert g(rk[j]).detalhe.fii == base[j];
    CorteMelhores(rk, TopEfetivo(top), g, rk[j]);
  }

  /** Re-sorting keeps every mapped entry. */
  lemma {:induction false} MapeadoPresente(tb: seq<Ranqueado>, g: Ranqueado -> FiiFiltrado, k: nat)
    requires k < |tb|
    ensures exists i | 0 <= i < |SortByKey(Map(tb, g), ChaveFiltrado)| :: SortByKey(Map(tb, g), ChaveFiltrado)[i] == g(tb[k])
  {
    var m := Map(tb, g);
    var r := SortByKey(m, ChaveFiltrado);
    assert m[k] == g(tb[k]);
    assert m[k] in multiset(r);
    assert m[k] in r;
  }

  /**
   * Cutting the (RankLevel, RankPvp, RankDy) order at `n` and re-sorting: an
   * entry left out means `n` were kept, each no later than it.
   */
  lemma {:induction false} CorteMelhores(rk: seq<Ranqueado>, n: nat, g: Ranqueado -> FiiFiltrado, x: Ranqueado)
    requires x in rk
    requires forall y :: ChaveFiltrado(g(y)) == ChaveNivel(y)
    requires forall i | 0 <= i < |SortByKey(Map(Take(SortByKey(rk, ChaveNivel), n), g), ChaveFiltrado)| ::
      SortByKey(Map(Take(SortByKey(rk, ChaveNivel), n), g), ChaveFiltrado)[i] != g(x)
    ensures |SortByKey(Map(Take(SortByKey(rk, ChaveNivel), n), g), ChaveFiltrado)| == n
    ensures forall i | 0 <= i < |SortByKey(Map(Take(SortByKey(rk, ChaveNivel), n), g), ChaveFiltrado)| ::
      LexLe(ChaveFiltrado(SortByKey(Map(Take(SortByKey(rk, ChaveNivel), n), g), ChaveFiltrado)[i]), ChaveNivel(x))
  {
    var s := SortByKey(rk, ChaveNivel);
    var tb := Take(s, n);
    var m := Map(tb, g);
    var r := SortByKey(m, ChaveFiltrado);
    assert x in multiset(rk);
    assert x in s;
    forall k | 0 <= k < |tb| ensures tb[k] != x {
      MapeadoPresente(tb, g, k);
    }
    assert x !in tb;
    assert n <= |s|;
    TakeKeepsBest(s, ChaveNivel, n, x);
    OrderFacts(m, ChaveFiltrado);
    forall i | 0 <= i < |r| ensures LexLe(ChaveFiltrado(r[i]), ChaveNivel(x)) {
      var k := Order(m, ChaveFiltrado)[i];
      assert r[i] == m[k] && m[k] == g(s[k]);
    }
  }
}
