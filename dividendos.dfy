/**
 * The income helpers of the fund service: monthly income from the 12-month
 * dividend per share, the monthly yield, the daily income and the "magic
 * number" (how many shares it takes for one month of income to buy one more
 * share). Each returns zero when an input is not positive.
 */
module Dividendos {
  import opened Decimals

  /** Rounding a non-negative value never gives a negative one. */
  lemma {:induction false} Round2NaoNegativo(x: real)
    requires x >= 0.0
    ensures Round2(x) >= 0.0
  {
    var n := RoundHalfEven(x * 100.0);
    assert n as real >= -0.5;
    assert n >= 0;
  }

  /** Multiplying by a positive factor keeps the order. */
  lemma {:induction false} Monotono(a: real, b: real, k: real)
    requires k > 0.0
    ensures a >= b ==> a * k >= b * k
    ensures a > b ==> a * k > b * k
  {
    assert a * k - b * k == (a - b) * k;
  }

  /** CalcularProventoMensalPeloDivCota: a twelfth of the yearly dividend, to the cent. */
  function ProventoMensal(dividendoPorCota12m: real): (r: real)
    ensures dividendoPorCota12m <= 0.0 ==> r == 0.0
    ensures dividendoPorCota12m > 0.0 ==>
      IsCents(r) && r >= 0.0 && dividendoPorCota12m / 12.0 - 0.005 <= r <= dividendoPorCota12m / 12.0 + 0.005
  {
    if dividendoPorCota12m <= 0.0 then 0.0
    else
      Round2NaoNegativo(dividendoPorCota12m / 12.0);
      Round2(dividendoPorCota12m / 12.0)
  }

  /** CalcularDyMensalPeloProvento: the monthly income as a percentage of the price, to the cent. */
  function DyMensal(cotacao: real, proventoMensal: real): (r: real)
    ensures cotacao <= 0.0 || proventoMensal <= 0.0 ==> r == 0.0
    ensures cotacao > 0.0 && proventoMensal > 0.0 ==>
      var exato := proventoMensal / cotacao * 100.0;
      IsCents(r) && r >= 0.0 && exato - 0.005 <= r <= exato + 0.005
  {
    if cotacao <= 0.0 || proventoMensal <= 0.0 then 0.0
    else
      Round2NaoNegativo(proventoMensal / cotacao * 100.0);
      Round2(proventoMensal / cotacao * 100.0)
  }

  /**
   * CalcularProventoDiario: the monthly income spread over the days of the
   * current month, to six decimals. The number of days comes from the clock,
   * so it is a parameter here.
   */
  function ProventoDiario(proventoMensal: real, diasNoMes: int): (r: real)
    ensures diasNoMes <= 0 || proventoMensal <= 0.0 ==> r == 0.0
    ensures diasNoMes > 0 && proventoMensal > 0.0 ==>
      var exato := proventoMensal / diasNoMes as real;
      IsMillionths(r) && exato - 0.0000005 <= r <= exato + 0.0000005
  {
    if diasNoMes <= 0 || proventoMensal <= 0.0 then 0.0
    else Round6(proventoMensal / diasNoMes as real)
  }

  /**
   * CalcularQtdCotasNumeroMagico: the fewest shares whose monthly income
   * covers the price of one more share, that is the ceiling of price / income.
   */
  function QtdCotasNumeroMagico(cotacao: real, proventoMensal: real): (q: int)
    ensures cotacao <= 0.0 || proventoMensal <= 0.0 ==> q == 0
    ensures cotacao > 0.0 && proventoMensal > 0.0 ==>
      q >= 1 && q as real * proventoMensal >= cotacao && (q - 1) as real * proventoMensal < cotacao
  {
    if cotacao <= 0.0 || proventoMensal <= 0.0 then 0
    else
      var q := Ceil(cotacao / proventoMensal);
      CotasPeloTeto(cotacao, proventoMensal, q);
      q
  }

  /** A count at the ceiling of price / income covers the price, and one fewer does not. */
  lemma {:induction false} CotasPeloTeto(cotacao: real, proventoMensal: real, q: int)
    requires cotacao > 0.0 && proventoMensal > 0.0
    requires q as real >= cotacao / proventoMensal && (q - 1) as real < cotacao / proventoMensal
    ensures q >= 1 && q as real * proventoMensal >= cotacao && (q - 1) as real * proventoMensal < cotacao
  {
    var x := cotacao / proventoMensal;
    assert x * proventoMensal == cotacao;
    Monotono(0.0, x, proventoMensal);
    Monotono(q as real, x, proventoMensal);
    Monotono(x, (q - 1) as real, proventoMensal);
  }

  /** The magic number is the least share count whose income covers one more share. */
  lemma {:induction false} NumeroMagicoMinimo(cotacao: real, proventoMensal: real, n: int)
    requires cotacao > 0.0 && proventoMensal > 0.0
    requires n as real * proventoMensal >= cotacao
    ensures n >= QtdCotasNumeroMagico(cotacao, proventoMensal)
  {
    var q := QtdCotasNumeroMagico(cotacao, proventoMensal);
    assert (q - 1) as real * proventoMensal < cotacao;
    Monotono((q - 1) as real, n as real, proventoMensal);
    assert !((q - 1) as real >= n as real);
  }

  /** CalcularValorParaNumeroMagico: what that many shares cost, to the cent. */
  function ValorParaNumeroMagico(qtdCotasNumeroMagico: int, cotacao: real): (r: real)
    ensures qtdCotasNumeroMagico <= 0 || cotacao <= 0.0 ==> r == 0.0
    ensures qtdCotasNumeroMagico > 0 && cotacao > 0.0 ==>
      var exato := qtdCotasNumeroMagico as real * cotacao;
      IsCents(r) && r >= 0.0 && exato - 0.005 <= r <= exato + 0.005
  {
    if qtdCotasNumeroMagico <= 0 || cotacao <= 0.0 then 0.0
    else
      Round2NaoNegativo(qtdCotasNumeroMagico as real * cotacao);
      Round2(qtdCotasNumeroMagico as real * cotacao)
  }

  /** A position of at least one share, valued to half a cent, is worth at least one share less half a cent. */
  lemma {:induction false} PeloMenosUma(v: real, q: real, cotacao: real)
    requires q >= 1.0 && cotacao > 0.0 && v >= q * cotacao - 0.005
    ensures v >= cotacao - 0.005
  {
    Monotono(q, 1.0, cotacao);
  }

  /**
   * At the magic number, the monthly income of the position covers one more
   * share: value / price is the share count, and share count times income is
   * at least the price.
   */
  lemma {:induction false} NumeroMagicoCobreCota(cotacao: real, proventoMensal: real)
    requires cotacao > 0.0 && proventoMensal > 0.0
    ensures var q := QtdCotasNumeroMagico(cotacao, proventoMensal);
      var v := ValorParaNumeroMagico(q, cotacao);
      v >= cotacao - 0.005 && q as real * proventoMensal >= cotacao
  {
    var q := QtdCotasNumeroMagico(cotacao, proventoMensal);
    var v := ValorParaNumeroMagico(q, cotacao);
    PeloMenosUma(v, q as real, cotacao);
  }
}
