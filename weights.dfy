/**
 * Weighting of a suggested portfolio: equal weights per bucket with a cap per
 * fund (DistribuirPeso), then one correction that brings the total to 100
 * (NormalizarParaCem).
 */
module Pesos {
  import opened Decimals
  import opened Domain

  /**
   * The weight of each of the n funds of a bucket: Math.Round(peso / n, 2),
   * lowered to the cap when it exceeds it.
   */
  function PesoBase(pesoBucket: real, n: nat, maxPorAtivo: real): (w: real)
    requires n > 0
    ensures w <= maxPorAtivo
    ensures Round2(pesoBucket / n as real) <= maxPorAtivo ==> w == Round2(pesoBucket / n as real)
    ensures Round2(pesoBucket / n as real) > maxPorAtivo ==> w == maxPorAtivo
  {
    var b := Round2(pesoBucket / n as real);
    if b > maxPorAtivo then maxPorAtivo else b
  }

  /** The CarteiraSugeridaItemDto built from a ranked fund. */
  function ParaItem(f: FiiRanking, bucket: Bucket, peso: real): CarteiraItem {
    CarteiraItem(f.papel, bucket, f.score, f.risco, peso, f.cotacao, f.dividendYield,
                 f.pvp, f.liquidez, f.valorMercado, f.segmento, f.motivos)
  }

  /** DistribuirPeso: one item per selected fund, in order, all with the same weight. */
  function DistribuirPeso(sel: seq<FiiRanking>, bucket: Bucket, pesoBucket: real, maxPorAtivo: real): (r: seq<CarteiraItem>)
    ensures |r| == |sel|
    ensures |sel| > 0 ==> forall i | 0 <= i < |r| :: r[i] == ParaItem(sel[i], bucket, PesoBase(pesoBucket, |sel|, maxPorAtivo))
  {
    if |sel| == 0 then []
    else
      var w := PesoBase(pesoBucket, |sel|, maxPorAtivo);
      seq(|sel|, i requires 0 <= i < |sel| => ParaItem(sel[i], bucket, w))
  }

  /** Enumerable.Sum over the items' weights. */
  function SomaPesos(itens: seq<CarteiraItem>): real {
    if |itens| == 0 then 0.0 else itens[0].pesoPercentual + SomaPesos(itens[1..])
  }

  predicate PesosEmCentavos(itens: seq<CarteiraItem>) {
    forall i | 0 <= i < |itens| :: IsCents(itens[i].pesoPercentual)
  }

  /**
   * The index the correction goes to: the first item whose score is the
   * maximum (Max, then FirstOrDefault, then IndexOf).
   */
  function IndiceMelhor(itens: seq<CarteiraItem>): (idx: nat)
    requires |itens| > 0
    ensures idx < |itens|
    ensures forall j | 0 <= j < |itens| :: itens[j].score <= itens[idx].score
    ensures forall j | 0 <= j < idx :: itens[j].score < itens[idx].score
  {
    if |itens| == 1 then 0
    else
      var t := 1 + IndiceMelhor(itens[1..]);
      assert itens[t] == itens[1..][t - 1];
      assert forall j | 1 <= j < |itens| :: itens[j] == itens[1..][j - 1];
      if itens[0].score >= itens[t].score then 0 else t
  }

  /** The list NormalizarParaCem leaves behind. */
  function NormalizadoParaCem(itens: seq<CarteiraItem>): (r: seq<CarteiraItem>)
    ensures |r| == |itens|
  {
    if |itens| == 0 then itens
    else
      var diff := Round2(100.0 - SomaPesos(itens));
      if diff == 0.0 then itens
      else
        var idx := IndiceMelhor(itens);
        itens[idx := itens[idx].(pesoPercentual := Round2(itens[idx].pesoPercentual + diff))]
  }

  /** NormalizarParaCem: overwrites the best item with its corrected weight, in place. */
  method NormalizarParaCem(itens: array<CarteiraItem>)
    modifies itens
    ensures itens[..] == NormalizadoParaCem(old(itens[..]))
  {
    if itens.Length == 0 {
      return;
    }
    var soma := SomaPesos(itens[..]);
    var diff := Round2(100.0 - soma);
    if diff == 0.0 {
      return;
    }
    var idx := IndiceMelhor(itens[..]);
    itens[idx] := itens[idx].(pesoPercentual := Round2(itens[idx].pesoPercentual + diff));
  }

  // ---------------------------------------------------------------------
  // Properties
  // ---------------------------------------------------------------------

  lemma {:induction false} SomaPesosConcat(a: seq<CarteiraItem>, b: seq<CarteiraItem>)
    ensures SomaPesos(a + b) == SomaPesos(a) + SomaPesos(b)
  {
    if |a| > 0 {
      assert (a + b)[1..] == a[1..] + b;
      SomaPesosConcat(a[1..], b);
    } else {
      assert a + b == b;
    }
  }

  lemma {:induction false} SomaPesosUpdate(itens: seq<CarteiraItem>, i: nat, w: real)
    requires i < |itens|
    ensures SomaPesos(itens[i := itens[i].(pesoPercentual := w)]) == SomaPesos(itens) - itens[i].pesoPercentual + w
  {
    if i > 0 {
      assert itens[i := itens[i].(pesoPercentual := w)][1..] == itens[1..][i - 1 := itens[i].(pesoPercentual := w)];
      SomaPesosUpdate(itens[1..], i - 1, w);
    }
  }

  /** A sum of two-decimal weights has two decimals. */
  lemma {:induction false} SomaPesosCentavos(itens: seq<CarteiraItem>)
    requires PesosEmCentavos(itens)
    ensures IsCents(SomaPesos(itens))
  {
    if |itens| == 0 {
      CentsOfInt(0);
    } else {
      SomaPesosCentavos(itens[1..]);
      CentsAdd(itens[0].pesoPercentual, SomaPesos(itens[1..]));
    }
  }

  /** n items of weight w weigh n * w together. */
  lemma {:induction false} SomaPesosConstante(itens: seq<CarteiraItem>, w: real)
    requires forall i | 0 <= i < |itens| :: itens[i].pesoPercentual == w
    ensures SomaPesos(itens) == |itens| as real * w
  {
    if |itens| > 0 {
      SomaPesosConstante(itens[1..], w);
    }
  }

  /**
   * A bucket's items copy their funds and share one weight, at most the cap and
   * with two decimals; uncapped, they add up to the bucket's share up to half a
   * cent per fund.
   */
  lemma {:induction false} DistribuirPesoFacts(sel: seq<FiiRanking>, bucket: Bucket, pesoBucket: real, maxPorAtivo: real)
    requires |sel| > 0 && IsCents(maxPorAtivo)
    ensures var r := DistribuirPeso(sel, bucket, pesoBucket, maxPorAtivo);
      && PesosEmCentavos(r)
      && (forall i | 0 <= i < |r| ::
            && r[i].papel == sel[i].papel && r[i].tipo == bucket && r[i].score == sel[i].score
            && r[i].pesoPercentual == r[0].pesoPercentual && r[i].pesoPercentual <= maxPorAtivo)
      && (Round2(pesoBucket / |sel| as real) <= maxPorAtivo ==>
            pesoBucket - 0.005 * |sel| as real <= SomaPesos(r) <= pesoBucket + 0.005 * |sel| as real)
  {
    var r := DistribuirPeso(sel, bucket, pesoBucket, maxPorAtivo);
    var n := |sel| as real;
    var w := PesoBase(pesoBucket, |sel|, maxPorAtivo);
    assert IsCents(w) && w <= maxPorAtivo;
    forall i | 0 <= i < |r|
      ensures r[i].papel == sel[i].papel && r[i].tipo == bucket && r[i].score == sel[i].score
      ensures r[i].pesoPercentual == w
    {
      assert r[i] == ParaItem(sel[i], bucket, w);
    }
    assert PesosEmCentavos(r);
    if Round2(pesoBucket / n) <= maxPorAtivo {
      SomaPerto(r, w, pesoBucket);
    }
  }

  /** Equal weights each within half a cent of peso / n add up to peso, up to n half cents. */
  lemma {:induction false} SomaPerto(r: seq<CarteiraItem>, w: real, pesoBucket: real)
    requires |r| > 0 && forall i | 0 <= i < |r| :: r[i].pesoPercentual == w
    requires pesoBucket / |r| as real - 0.005 <= w <= pesoBucket / |r| as real + 0.005
    ensures pesoBucket - 0.005 * |r| as real <= SomaPesos(r) <= pesoBucket + 0.005 * |r| as real
  {
    var n := |r| as real;
    var q := pesoBucket / n;
    SomaPesosConstante(r, w);
    assert q * n == pesoBucket;
    Escala(n, q, w, pesoBucket, SomaPesos(r));
  }

  /** n copies of a value within half a cent of q add up to within n half cents of p = n * q. */
  lemma {:induction false} Escala(n: real, q: real, w: real, p: real, s: real)
    requires n > 0.0 && q - 0.005 <= w <= q + 0.005 && q * n == p && s == n * w
    ensures p - 0.005 * n <= s <= p + 0.005 * n
  {
    var a, b := q + 0.005 - w, w - q + 0.005;
    assert a >= 0.0 && b >= 0.0;
    assert a * n >= 0.0 && b * n >= 0.0;
    assert a * n == q * n + 0.005 * n - n * w;
    assert b * n == n * w - q * n + 0.005 * n;
  }

  /** With two-decimal weights the correction is exact: the weights then add up to 100. */
  lemma {:induction false} NormalizadoSomaCem(itens: seq<CarteiraItem>)
    requires |itens| > 0 && PesosEmCentavos(itens)
    ensures SomaPesos(NormalizadoParaCem(itens)) == 100.0
  {
    var soma := SomaPesos(itens);
    SomaPesosCentavos(itens);
    CentsOfInt(10000);
    assert IsCents(100.0);
    CentsAdd(100.0, soma);
    Round2OfCents(100.0 - soma);
    var diff := 100.0 - soma;
    if diff != 0.0 {
      var idx := IndiceMelhor(itens);
      var w := itens[idx].pesoPercentual;
      CentsAdd(w, diff);
      Round2OfCents(w + diff);
      SomaPesosUpdate(itens, idx, w + diff);
    }
  }

  /**
   * Nothing but the weight of the first best-scored item changes, so every
   * other item keeps its weight under the cap; an empty list is unchanged.
   */
  lemma {:induction false} NormalizadoSoMudaMelhor(itens: seq<CarteiraItem>)
    ensures |itens| == 0 ==> NormalizadoParaCem(itens) == itens
    ensures |itens| > 0 ==>
      var r, idx := NormalizadoParaCem(itens), IndiceMelhor(itens);
      && r[idx] == itens[idx].(pesoPercentual := r[idx].pesoPercentual)
      && forall j | 0 <= j < |itens| && j != idx :: r[j] == itens[j]
  {
  }

  /** The cap of DistribuirPeso can be exceeded after the correction only by the corrected item. */
  lemma {:induction false} TetoAposNormalizar(itens: seq<CarteiraItem>, maxPorAtivo: real, j: nat)
    requires |itens| > 0 && j < |itens| && j != IndiceMelhor(itens)
    requires itens[j].pesoPercentual <= maxPorAtivo
    ensures NormalizadoParaCem(itens)[j].pesoPercentual <= maxPorAtivo
  {
    NormalizadoSoMudaMelhor(itens);
  }
}
