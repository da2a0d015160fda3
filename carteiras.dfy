/**
 * The weighted portfolios: the fixed suggestion, the parametrized one (bucket
 * weights and counts given), and the one built from a total, whose counts come
 * from the largest-remainder apportionment. Each validates its request first;
 * a failed validation is the ArgumentException the service throws.
 */
module Carteiras {
  import opened Wrappers
  import opened Decimals
  import opened Seqs
  import opened Domain
  import opened ScoreRules
  import opened Ranking
  import opened Pesos
  import opened Apportion

  /** The per-fund cap and the liquidity floor of the type buckets. */
  const MaxPorAtivo: real := 15.0
  const MinLiquidezGeral: real := 800000.0

  predicate Liquido(x: FiiRanking) {
    x.liquidez >= MinLiquidezGeral
  }

  /** The first `qtd` liquid funds of the per-type ranking of `baseSize`. */
  function EscolhidosDoTipo(all: seq<Fii>, tipo: Tipo, baseSize: int, qtd: int): seq<FiiRanking> {
    Take(Filter(RankingPorTipo(all, tipo, baseSize), Liquido), qtd)
  }

  /** The first `qtd` funds of the trusted-risk list of `baseSize`. */
  function EscolhidosRisco(all: seq<Fii>, baseSize: int, qtd: int): seq<FiiRanking> {
    Take(RiscoConfiavel(all, baseSize), qtd)
  }

  /** The three buckets, weighted, in TIJOLO, PAPEL, RISCO order, before the correction to 100. */
  function ItensBrutos(all: seq<Fii>, pt: real, pp: real, pr: real, qt: int, qp: int, qr: int, baseSize: int): seq<CarteiraItem> {
    DistribuirPeso(EscolhidosDoTipo(all, Tijolo, baseSize, qt), BucketTijolo, pt, MaxPorAtivo)
    + DistribuirPeso(EscolhidosDoTipo(all, Papel, baseSize, qp), BucketPapel, pp, MaxPorAtivo)
    + DistribuirPeso(EscolhidosRisco(all, baseSize, qr), BucketRisco, pr, MaxPorAtivo)
  }

  /** The DTO: the requested weights, the corrected items and their count. */
  function Montar(pt: real, pp: real, pr: real, brutos: seq<CarteiraItem>): CarteiraSugerida {
    var itens := NormalizadoParaCem(brutos);
    CarteiraSugerida(pt, pp, pr, |itens|, itens)
  }

  /** The item list filled by AddRange, corrected in place, then wrapped with its count. */
  method MontarCarteira(pt: real, pp: real, pr: real, brutos: seq<CarteiraItem>) returns (c: CarteiraSugerida)
    ensures c == Montar(pt, pp, pr, brutos)
  {
    var itens := new CarteiraItem[|brutos|](i requires 0 <= i < |brutos| => brutos[i]);
    assert itens[..] == brutos;
    NormalizarParaCem(itens);
    c := CarteiraSugerida(pt, pp, pr, itens.Length, itens[..]);
  }

  // ---------------------------------------------------------------------
  // ObterCarteiraSugeridaAsync
  // ---------------------------------------------------------------------

  /** 60/35/5 over 6/5/2 funds drawn from rankings of 120; no validation. */
  function Sugerida(all: seq<Fii>): (r: CarteiraSugerida)
    ensures r.pesoTijoloPercentual == 60.0 && r.pesoPapelPercentual == 35.0 && r.pesoRiscoPercentual == 5.0
    ensures r.totalAtivos == |r.itens|
  {
    Montar(60.0, 35.0, 5.0, ItensBrutos(all, 60.0, 35.0, 5.0, 6, 5, 2, 120))
  }

  // ---------------------------------------------------------------------
  // ObterCarteiraParametrizadaAsync
  // ---------------------------------------------------------------------

  predicate PesosValidos(pt: real, pp: real, pr: real) {
    pt >= 0.0 && pp >= 0.0 && pr >= 0.0
  }

  predicate QuantidadesValidas(req: CarteiraParamRequest) {
    req.qtdTijolo >= 0 && req.qtdPapel >= 0 && req.qtdRisco >= 0
  }

  function SomaArredondada(pt: real, pp: real, pr: real): real {
    Round2(pt + pp + pr)
  }

  /** Max(120, total count * 10). */
  function TamanhoBase(req: CarteiraParamRequest): int {
    Max(120, (req.qtdTijolo + req.qtdPapel + req.qtdRisco) * 10)
  }

  /** ObterCarteiraParametrizadaAsync: the four checks in order, then the portfolio. */
  function Parametrizada(all: seq<Fii>, req: CarteiraParamRequest): (r: Result<CarteiraSugerida, Erro>)
    ensures r.Success? <==>
      && PesosValidos(req.pesoTijoloPercentual, req.pesoPapelPercentual, req.pesoRiscoPercentual)
      && SomaArredondada(req.pesoTijoloPercentual, req.pesoPapelPercentual, req.pesoRiscoPercentual) == 100.0
      && QuantidadesValidas(req)
      && req.qtdTijolo + req.qtdPapel + req.qtdRisco > 0
    ensures r.Failure? ==> r.error.IsArgumentException()
  {
    var pt, pp, pr := req.pesoTijoloPercentual, req.pesoPapelPercentual, req.pesoRiscoPercentual;
    if !PesosValidos(pt, pp, pr) then Failure(PesosNegativos)
    else if SomaArredondada(pt, pp, pr) != 100.0 then Failure(SomaDiferenteDeCem(SomaArredondada(pt, pp, pr)))
    else if !QuantidadesValidas(req) then Failure(QuantidadesNegativas)
    else if req.qtdTijolo + req.qtdPapel + req.qtdRisco <= 0 then Failure(NenhumAtivo)
    else
      Success(Montar(pt, pp, pr, ItensBrutos(all, pt, pp, pr, req.qtdTijolo, req.qtdPapel, req.qtdRisco, TamanhoBase(req))))
  }

  // ---------------------------------------------------------------------
  // ObterCarteiraPorPercentualETotalAsync
  // ---------------------------------------------------------------------

  /** The parametrized request with the apportioned counts. */
  function ParamDe(req: CarteiraPercentualRequest): CarteiraParamRequest {
    var pesos := [req.pesoTijoloPercentual, req.pesoPapelPercentual, req.pesoRiscoPercentual];
    var q := Quantidades(req.totalFiis, pesos, ChavesTpr);
    CarteiraParamRequest(pesos[0], pesos[1], pesos[2], q[0], q[1], q[2])
  }

  /** ObterCarteiraPorPercentualETotalAsync: its three checks, then the parametrized portfolio. */
  function PorPercentualETotal(all: seq<Fii>, req: CarteiraPercentualRequest): (r: Result<CarteiraSugerida, Erro>)
    ensures req.totalFiis <= 0 ==> r == Failure(TotalNaoPositivo)
    ensures req.totalFiis > 0 && !PesosValidos(req.pesoTijoloPercentual, req.pesoPapelPercentual, req.pesoRiscoPercentual) ==>
      r == Failure(PesosNegativos)
    ensures var soma := SomaArredondada(req.pesoTijoloPercentual, req.pesoPapelPercentual, req.pesoRiscoPercentual);
      (req.totalFiis > 0 && PesosValidos(req.pesoTijoloPercentual, req.pesoPapelPercentual, req.pesoRiscoPercentual) && soma != 100.0) ==>
        r == Failure(SomaDiferenteDeCem(soma))
    ensures var soma := SomaArredondada(req.pesoTijoloPercentual, req.pesoPapelPercentual, req.pesoRiscoPercentual);
      (req.totalFiis > 0 && PesosValidos(req.pesoTijoloPercentual, req.pesoPapelPercentual, req.pesoRiscoPercentual) && soma == 100.0) ==>
        r == Parametrizada(all, ParamDe(req))
    ensures r.Failure? ==> r.error.IsArgumentException()
  {
    var pt, pp, pr := req.pesoTijoloPercentual, req.pesoPapelPercentual, req.pesoRiscoPercentual;
    if req.totalFiis <= 0 then Failure(TotalNaoPositivo)
    else if !PesosValidos(pt, pp, pr) then Failure(PesosNegativos)
    else if SomaArredondada(pt, pp, pr) != 100.0 then Failure(SomaDiferenteDeCem(SomaArredondada(pt, pp, pr)))
    else Parametrizada(all, ParamDe(req))
  }

  // ---------------------------------------------------------------------
  // Properties
  // ---------------------------------------------------------------------

  /** The failed check decides the error: the first one that fails, in source order. */
  lemma {:induction false} ParametrizadaErros(all: seq<Fii>, req: CarteiraParamRequest)
    ensures var r := Parametrizada(all, req);
      var pt, pp, pr := req.pesoTijoloPercentual, req.pesoPapelPercentual, req.pesoRiscoPercentual;
      && (!PesosValidos(pt, pp, pr) ==> r == Failure(PesosNegativos))
      && (PesosValidos(pt, pp, pr) && SomaArredondada(pt, pp, pr) != 100.0 ==>
            r == Failure(SomaDiferenteDeCem(SomaArredondada(pt, pp, pr))))
      && (PesosValidos(pt, pp, pr) && SomaArredondada(pt, pp, pr) == 100.0 && !QuantidadesValidas(req) ==>
            r == Failure(QuantidadesNegativas))
      && (var n := req.qtdTijolo + req.qtdPapel + req.qtdRisco;
          PesosValidos(pt, pp, pr) && SomaArredondada(pt, pp, pr) == 100.0 && QuantidadesValidas(req) && n <= 0 ==>
            r == Failure(NenhumAtivo))
  {
  }

  /** Any list of two-decimal weights joined to another keeps two decimals. */
  lemma {:induction false} CentavosConcat(a: seq<CarteiraItem>, b: seq<CarteiraItem>)
    requires PesosEmCentavos(a) && PesosEmCentavos(b)
    ensures PesosEmCentavos(a + b)
  {
    forall i | 0 <= i < |a + b| ensures IsCents((a + b)[i].pesoPercentual) {
      if i >= |a| {
        assert (a + b)[i] == b[i - |a|];
      }
    }
  }

  /** One bucket's items: n of them, tagged, with one two-decimal weight of at most 15. */
  lemma {:induction false} BucketFacts(sel: seq<FiiRanking>, bucket: Bucket, peso: real)
    ensures var r := DistribuirPeso(sel, bucket, peso, MaxPorAtivo);
      && |r| == |sel|
      && PesosEmCentavos(r)
      && forall i | 0 <= i < |r| ::
           r[i].papel == sel[i].papel && r[i].tipo == bucket && r[i].pesoPercentual <= MaxPorAtivo
  {
    if |sel| > 0 {
      CentsOfInt(1500);
      DistribuirPesoFacts(sel, bucket, peso, MaxPorAtivo);
    }
  }

  /**
   * Three weighted buckets joined: their funds in order, tagged by bucket,
   * each with a two-decimal weight of at most 15.
   */
  lemma {:induction false} TresBucketsFacts(t: seq<FiiRanking>, p: seq<FiiRanking>, k: seq<FiiRanking>, pt: real, pp: real, pr: real)
    ensures var r := DistribuirPeso(t, BucketTijolo, pt, MaxPorAtivo) + DistribuirPeso(p, BucketPapel, pp, MaxPorAtivo)
        + DistribuirPeso(k, BucketRisco, pr, MaxPorAtivo);
      && |r| == |t| + |p| + |k|
      && PesosEmCentavos(r)
      && (forall i | 0 <= i < |r| :: r[i].pesoPercentual <= MaxPorAtivo)
      && (forall i | 0 <= i < |t| :: r[i].tipo == BucketTijolo && r[i].papel == t[i].papel)
      && (forall i | 0 <= i < |p| :: r[|t| + i].tipo == BucketPapel && r[|t| + i].papel == p[i].papel)
      && (forall i | 0 <= i < |k| :: r[|t| + |p| + i].tipo == BucketRisco && r[|t| + |p| + i].papel == k[i].papel)
  {
    var dt, dp, dk := DistribuirPeso(t, BucketTijolo, pt, MaxPorAtivo), DistribuirPeso(p, BucketPapel, pp, MaxPorAtivo),
      DistribuirPeso(k, BucketRisco, pr, MaxPorAtivo);
    BucketFacts(t, BucketTijolo, pt);
    BucketFacts(p, BucketPapel, pp);
    BucketFacts(k, BucketRisco, pr);
    CentavosConcat(dt, dp);
    CentavosConcat(dt + dp, dk);
    var r := dt + dp + dk;
    forall i | 0 <= i < |r| ensures r[i].pesoPercentual <= MaxPorAtivo {
      if i < |dt| {
        assert r[i] == dt[i];
      } else if i < |dt| + |dp| {
        assert r[i] == dp[i - |dt|];
      } else {
        assert r[i] == dk[i - |dt| - |dp|];
      }
    }
    forall i | 0 <= i < |p| ensures r[|t| + i] == dp[i] {
    }
    forall i | 0 <= i < |k| ensures r[|t| + |p| + i] == dk[i] {
    }
  }

  /** The first q liquid funds of a list of one type with positive scores. */
  lemma {:induction false} PrimeirosLiquidos(r: seq<FiiRanking>, tipo: Tipo, q: int)
    requires forall i | 0 <= i < |r| :: r[i].tipo == tipo && r[i].score > 0.0
    ensures var t := Take(Filter(r, Liquido), q);
      |t| <= Max(q, 0) && forall i | 0 <= i < |t| :: t[i].tipo == tipo && t[i].score > 0.0 && Liquido(t[i])
  {
    var f := Filter(r, Liquido);
    forall i | 0 <= i < |f| ensures f[i].tipo == tipo && f[i].score > 0.0 {
      var j :| 0 <= j < |r| && r[j] == f[i];
    }
  }

  /** A type bucket holds at most the requested count of funds of that type, scored above zero, liquid. */
  lemma {:induction false} EscolhidosDoTipoFacts(all: seq<Fii>, tipo: Tipo, b: int, q: int)
    ensures var t := EscolhidosDoTipo(all, tipo, b, q);
      |t| <= Max(q, 0) && forall i | 0 <= i < |t| :: t[i].tipo == tipo && t[i].score > 0.0 && t[i].liquidez >= MinLiquidezGeral
  {
    RankingPorTipoFacts(all, tipo, b);
    PrimeirosLiquidos(RankingPorTipo(all, tipo, b), tipo, q);
  }

  /** The risk bucket holds at most the requested count of funds, all of them trusted-risk ones. */
  lemma {:induction false} EscolhidosRiscoFacts(all: seq<Fii>, b: int, q: int)
    ensures var k := EscolhidosRisco(all, b, q);
      |k| <= Max(q, 0) && forall i | 0 <= i < |k| :: IsRiscoConfiavel(k[i])
  {
    RiscoConfiavelFacts(all, b);
    PrimeirosDe(RiscoConfiavel(all, b), IsRiscoConfiavel, q);
  }

  /** The first q of a list whose funds all pass a test pass it too. */
  lemma {:induction false} PrimeirosDe(xs: seq<FiiRanking>, p: FiiRanking -> bool, q: int)
    requires forall i | 0 <= i < |xs| :: p(xs[i])
    ensures |Take(xs, q)| <= Max(q, 0) && forall i | 0 <= i < |Take(xs, q)| :: p(Take(xs, q)[i])
  {
  }

  /** A parametrized portfolio with at least one item weighs exactly 100 in total. */
  lemma {:induction false} ParametrizadaSomaCem(all: seq<Fii>, req: CarteiraParamRequest)
    requires Parametrizada(all, req).Success? && |Parametrizada(all, req).value.itens| > 0
    ensures SomaPesos(Parametrizada(all, req).value.itens) == 100.0
    ensures Parametrizada(all, req).value.totalAtivos == |Parametrizada(all, req).value.itens|
  {
    var brutos := ItensBrutos(all, req.pesoTijoloPercentual, req.pesoPapelPercentual, req.pesoRiscoPercentual,
      req.qtdTijolo, req.qtdPapel, req.qtdRisco, TamanhoBase(req));
    var b := TamanhoBase(req);
    TresBucketsFacts(EscolhidosDoTipo(all, Tijolo, b, req.qtdTijolo), EscolhidosDoTipo(all, Papel, b, req.qtdPapel),
      EscolhidosRisco(all, b, req.qtdRisco), req.pesoTijoloPercentual, req.pesoPapelPercentual, req.pesoRiscoPercentual);
    NormalizadoSomaCem(brutos);
  }

  /** The suggested portfolio, when not empty, weighs exactly 100 too. */
  lemma {:induction false} SugeridaSomaCem(all: seq<Fii>)
    requires |Sugerida(all).itens| > 0
    ensures SomaPesos(Sugerida(all).itens) == 100.0
    ensures |Sugerida(all).itens| <= 13
  {
    TresBucketsFacts(EscolhidosDoTipo(all, Tijolo, 120, 6), EscolhidosDoTipo(all, Papel, 120, 5),
      EscolhidosRisco(all, 120, 2), 60.0, 35.0, 5.0);
    EscolhidosDoTipoFacts(all, Tijolo, 120, 6);
    EscolhidosDoTipoFacts(all, Papel, 120, 5);
    EscolhidosRiscoFacts(all, 120, 2);
    NormalizadoSomaCem(ItensBrutos(all, 60.0, 35.0, 5.0, 6, 5, 2, 120));
  }

  /** Only the item the correction went to can weigh more than the 15 cap. */
  lemma {:induction false} ParametrizadaTeto(all: seq<Fii>, req: CarteiraParamRequest, j: nat)
    requires Parametrizada(all, req).Success? && j < |Parametrizada(all, req).value.itens|
    requires j != IndiceMelhor(ItensBrutos(all, req.pesoTijoloPercentual, req.pesoPapelPercentual, req.pesoRiscoPercentual,
      req.qtdTijolo, req.qtdPapel, req.qtdRisco, TamanhoBase(req)))
    ensures Parametrizada(all, req).value.itens[j].pesoPercentual <= MaxPorAtivo
  {
    var brutos := ItensBrutos(all, req.pesoTijoloPercentual, req.pesoPapelPercentual, req.pesoRiscoPercentual,
      req.qtdTijolo, req.qtdPapel, req.qtdRisco, TamanhoBase(req));
    var b := TamanhoBase(req);
    TresBucketsFacts(EscolhidosDoTipo(all, Tijolo, b, req.qtdTijolo), EscolhidosDoTipo(all, Papel, b, req.qtdPapel),
      EscolhidosRisco(all, b, req.qtdRisco), req.pesoTijoloPercentual, req.pesoPapelPercentual, req.pesoRiscoPercentual);
    TetoAposNormalizar(brutos, MaxPorAtivo, j);
  }

  lemma {:induction false} Sum3(a: real, b: real, c: real)
    ensures Sum([a, b, c]) == a + b + c
  {
    assert [a, b, c][1..] == [b, c] && [b, c][1..] == [c] && [c][1..] == [];
    assert Sum([c]) == c;
    assert Sum([b, c]) == b + c;
  }

  /**
   * With a positive total and non-negative weights that add up to exactly 100,
   * the request passes, and the counts handed to the parametrized portfolio are
   * non-negative and add up to the total.
   */
  lemma {:induction false} PorPercentualQuantidades(all: seq<Fii>, req: CarteiraPercentualRequest)
    requires req.totalFiis > 0
    requires PesosValidos(req.pesoTijoloPercentual, req.pesoPapelPercentual, req.pesoRiscoPercentual)
    requires req.pesoTijoloPercentual + req.pesoPapelPercentual + req.pesoRiscoPercentual == 100.0
    ensures PorPercentualETotal(all, req) == Parametrizada(all, ParamDe(req))
    ensures PorPercentualETotal(all, req).Success?
    ensures var q := ParamDe(req);
      QuantidadesValidas(q) && q.qtdTijolo + q.qtdPapel + q.qtdRisco == req.totalFiis
  {
    var pesos := [req.pesoTijoloPercentual, req.pesoPapelPercentual, req.pesoRiscoPercentual];
    Sum3(pesos[0], pesos[1], pesos[2]);
    CentsOfInt(10000);
    Round2OfCents(100.0);
    ChavesDosMetodos();
    QuantidadesSomam(req.totalFiis, pesos, ChavesTpr);
    QuantidadesNaoNegativas(req.totalFiis, pesos, ChavesTpr);
    var q := Quantidades(req.totalFiis, pesos, ChavesTpr);
    Separa(q, 3);
    Soma3(q[0], q[1], q[2]);
  }

  /**
   * The sum check rounds to two decimals, so weights adding up to 100.005 pass
   * it; the floors alone can then exceed the total, and the loop that hands out
   * the missing units has nothing to take back: 20000 funds at 50.005/50/0
   * become 20001 counts.
   */
  lemma {:induction false} QuantidadesExcedemTotal()
    ensures SomaArredondada(50.005, 50.0, 0.0) == 100.0
    ensures Quantidades(20000, [50.005, 50.0, 0.0], ChavesTpr) == [10001, 10000, 0]
  {
    var pesos := [50.005, 50.0, 0.0];
    assert RoundHalfEven(10000.5) == 10000;
    assert Exato(50.005, 20000) == 10001.0;
    assert Exato(50.0, 20000) == 10000.0;
    assert Exato(0.0, 20000) == 0.0;
    var p := Pisos(20000, pesos);
    assert p == [10001, 10000, 0];
    Soma3(10001, 10000, 0);
    assert Faltam(20000, pesos) == -1;
  }
}
