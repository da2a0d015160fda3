/**
 * The profile and the list of reasons the service attaches to each fund it
 * returns (CalcularTipoEMotivos and MotivosPerfil).
 */
module Motivos {
  import opened Wrappers
  import opened Text
  import opened Seqs
  import opened Domain
  import opened ScoreRules

  predicate SemBrancos(m: seq<string>) {
    forall i | 0 <= i < |m| :: !IsBlank(m[i])
  }

  /** Appending a non-blank reason keeps a list free of blank reasons. */
  lemma {:induction false} AddSeSemBrancos(m: seq<string>, cond: bool, motivo: string)
    requires SemBrancos(m) && |motivo| > 0 && !IsWhiteSpace(motivo[0])
    ensures SemBrancos(AddSe(m, cond, motivo))
  {
    if cond {
      assert AddSe(m, cond, motivo)[|m|] == motivo;
    }
  }

  const MotivoValorMercadoAlto := "Valor de mercado ≥ 1 bi (ancoragem)"
  const MotivoLiquidezAlta := "Liquidez alta (≥ 1,5M)"
  const MotivoPvpAncoragem := "P/VP perto de 1 (faixa de ancoragem)"
  const MotivoVacanciaBaixa := "Vacância ≤ 10%"
  const MotivoPvpDesconto := "P/VP abaixo de 1 (desconto / potencial)"
  const MotivoDyElevado := "DY elevado"
  const MotivoFfoElevado := "FFO Yield elevado"
  const MotivoScoreIntermediario := "Score intermediário " + "(perfil de risco controlado)"
  const MotivoLiquidezRazoavel := "Liquidez razoável (≥ 800k)"
  const MotivoRiscoElevado := "Perfil classificado como " + "risco elevado pelas regras"
  const MotivoLiquidezBaixa := "Liquidez baixa"
  const MotivoVacanciaAlta := "Vacância acima de 15%"
  const MotivoValorMercadoBaixo := "Valor de mercado baixo"

  /** The reasons each profile lists for the conditions the fund meets. */
  function MotivosDoPerfil(f: Fii, perfil: Perfil): (m: seq<string>)
    ensures SemBrancos(m)
    ensures perfil == RiscoControlado || perfil == RiscoElevado ==> |m| > 0
  {
    match perfil
    case Ancoragem =>
      var m1 := AddSe([], f.valorMercado >= 1000000000.0, MotivoValorMercadoAlto);
      var m2 := AddSe(m1, f.liquidez >= 1500000.0, MotivoLiquidezAlta);
      var m3 := AddSe(m2, f.pvp >= 0.98 && f.pvp <= 1.05, MotivoPvpAncoragem);
      AddSeSemBrancos([], f.valorMercado >= 1000000000.0, MotivoValorMercadoAlto);
      AddSeSemBrancos(m1, f.liquidez >= 1500000.0, MotivoLiquidezAlta);
      AddSeSemBrancos(m2, f.pvp >= 0.98 && f.pvp <= 1.05, MotivoPvpAncoragem);
      AddSeSemBrancos(m3, f.vacanciaMedia <= 10.0, MotivoVacanciaBaixa);
      AddSe(m3, f.vacanciaMedia <= 10.0, MotivoVacanciaBaixa)
    case Potencial =>
      var m1 := AddSe([], f.pvp < 0.95, MotivoPvpDesconto);
      var m2 := AddSe(m1, f.dividendYield >= 10.0, MotivoDyElevado);
      AddSeSemBrancos([], f.pvp < 0.95, MotivoPvpDesconto);
      AddSeSemBrancos(m1, f.dividendYield >= 10.0, MotivoDyElevado);
      AddSeSemBrancos(m2, f.ffoYield >= 9.0, MotivoFfoElevado);
      AddSe(m2, f.ffoYield >= 9.0, MotivoFfoElevado)
    case RiscoControlado =>
      assert SemBrancos([MotivoScoreIntermediario]) by {
        assert MotivoScoreIntermediario[0] == 'S';
        assert [MotivoScoreIntermediario][0] == MotivoScoreIntermediario;
      }
      AddSeSemBrancos([MotivoScoreIntermediario], f.liquidez >= 800000.0, MotivoLiquidezRazoavel);
      AddSe([MotivoScoreIntermediario], f.liquidez >= 800000.0, MotivoLiquidezRazoavel)
    case RiscoElevado =>
      var m0 := [MotivoRiscoElevado];
      var m1 := AddSe(m0, f.liquidez < 800000.0, MotivoLiquidezBaixa);
      var m2 := AddSe(m1, f.vacanciaMedia > 15.0, MotivoVacanciaAlta);
      assert SemBrancos(m0) by {
        assert MotivoRiscoElevado[0] == 'P';
        assert m0[0] == MotivoRiscoElevado;
      }
      AddSeSemBrancos(m0, f.liquidez < 800000.0, MotivoLiquidezBaixa);
      AddSeSemBrancos(m1, f.vacanciaMedia > 15.0, MotivoVacanciaAlta);
      AddSeSemBrancos(m2, f.valorMercado < 300000000.0, MotivoValorMercadoBaixo);
      AddSe(m2, f.valorMercado < 300000000.0, MotivoValorMercadoBaixo)
  }

  /**
   * MotivosPerfil: the profile's reasons, or, when the fund meets none of its
   * conditions, one reason naming the profile, type, tier and score; `fmt` is
   * decimal.ToString of the score, which depends on the culture.
   */
  function MotivosPerfil(f: Fii, perfil: Perfil, tipoFundo: Tipo, risco: Risco, score: real, fmt: real -> string): (m: seq<string>)
    ensures |m| > 0 && SemBrancos(m)
    ensures |MotivosDoPerfil(f, perfil)| > 0 ==> m == MotivosDoPerfil(f, perfil)
  {
    var m := MotivosDoPerfil(f, perfil);
    if |m| == 0 then
      var fallback := "Classificado como '" + perfil.Label() + "' pelas regras (tipo=" + tipoFundo.Label()
        + ", risco=" + risco.Label() + ", score=" + fmt(score) + ").";
      assert fallback[0] == 'C';
      [fallback]
    else m
  }

  /** Enumerable.Distinct with a comparer: first occurrences by key, in order. */
  function DistinctPor<K>(s: seq<string>, key: string -> K, vistos: set<K>): (r: seq<string>)
    ensures |r| <= |s|
  {
    if |s| == 0 then []
    else if key(s[0]) in vistos then DistinctPor(s[1..], key, vistos)
    else [s[0]] + DistinctPor(s[1..], key, vistos + {key(s[0])})
  }

  /** Distinct keeps only elements of its input, each with a key not seen before and no two with the same key. */
  lemma {:induction false} DistinctPorMembros<K>(s: seq<string>, key: string -> K, vistos: set<K>)
    ensures forall i | 0 <= i < |DistinctPor(s, key, vistos)| ::
      DistinctPor(s, key, vistos)[i] in s && key(DistinctPor(s, key, vistos)[i]) !in vistos
    ensures forall i, j | 0 <= i < j < |DistinctPor(s, key, vistos)| ::
      key(DistinctPor(s, key, vistos)[i]) != key(DistinctPor(s, key, vistos)[j])
  {
    if |s| > 0 {
      assert forall x | x in s[1..] :: x in s;
      if key(s[0]) in vistos {
        DistinctPorMembros(s[1..], key, vistos);
      } else {
        var v := vistos + {key(s[0])};
        var t := DistinctPor(s[1..], key, v);
        var r := [s[0]] + t;
        DistinctPorMembros(s[1..], key, v);
        assert r[0] == s[0];
        assert forall i | 0 < i < |r| :: r[i] == t[i - 1];
      }
    }
  }

  /** Distinct loses no key: each input key was seen before or is the key of some output. */
  lemma {:induction false} DistinctPorCompleto<K>(s: seq<string>, key: string -> K, vistos: set<K>)
    ensures var r := DistinctPor(s, key, vistos);
      forall i | 0 <= i < |s| :: key(s[i]) in vistos || key(s[i]) in Map(r, key)
  {
    if |s| > 0 {
      assert forall i | 0 < i < |s| :: s[i] == s[1..][i - 1];
      if key(s[0]) in vistos {
        DistinctPorCompleto(s[1..], key, vistos);
      } else {
        var v := vistos + {key(s[0])};
        var t := DistinctPor(s[1..], key, v);
        DistinctPorCompleto(s[1..], key, v);
        assert Map([s[0]] + t, key) == [key(s[0])] + Map(t, key);
      }
    }
  }

  function NaoBranco(x: string): bool {
    !IsBlank(x)
  }

  /** The clean-up: blank reasons out, then Distinct ignoring case. */
  function Limpar(brutos: seq<string>): seq<string> {
    DistinctPor(Filter(brutos, NaoBranco), ToUpper, {})
  }

  /** Any non-blank input reason keeps the clean list non-empty. */
  lemma {:induction false} LimparFacts(brutos: seq<string>, k: nat)
    requires k < |brutos| && !IsBlank(brutos[k])
    ensures var r := Limpar(brutos);
      && |r| > 0
      && (forall i | 0 <= i < |r| :: !IsBlank(r[i]) && r[i] in brutos)
      && (forall i, j | 0 <= i < j < |r| :: ToUpper(r[i]) != ToUpper(r[j]))
      && (forall i | 0 <= i < |brutos| && !IsBlank(brutos[i]) :: ToUpper(brutos[i]) in Map(r, ToUpper))
  {
    var limpos := Filter(brutos, NaoBranco);
    var r := Limpar(brutos);
    DistinctPorMembros(limpos, ToUpper, {});
    DistinctPorCompleto(limpos, ToUpper, {});
    assert NaoBranco(brutos[k]);
    assert brutos[k] in limpos;
    var j :| 0 <= j < |limpos| && limpos[j] == brutos[k];
    assert ToUpper(limpos[j]) in Map(r, ToUpper);
    forall i | 0 <= i < |brutos| && !IsBlank(brutos[i]) ensures ToUpper(brutos[i]) in Map(r, ToUpper) {
      assert NaoBranco(brutos[i]);
      assert brutos[i] in limpos;
      var x :| 0 <= x < |limpos| && limpos[x] == brutos[i];
    }
    forall i | 0 <= i < |r| ensures !IsBlank(r[i]) && r[i] in brutos {
      var x :| 0 <= x < |limpos| && limpos[x] == r[i];
    }
  }

  /** The profile and the reasons of one fund, with an optional forced profile. */
  datatype TipoEMotivos = TipoEMotivos(perfil: Perfil, motivos: seq<string>)

  /** The score triple of a fund by its detected type. */
  function Pontuar(f: Fii, tipoFundo: Tipo): ScoreResult {
    if tipoFundo == Tijolo then ScoreTijolo(f) else ScorePapel(f)
  }

  /** The FiiRankingDto of a fund scored as type `tipo`. */
  function ParaRanking(f: Fii, tipo: Tipo): FiiRanking {
    var sr := Pontuar(f, tipo);
    FiiRanking(f.papel, f.segmento, f.cotacao, f.dividendYield, f.pvp, f.valorMercado,
               f.liquidez, f.vacanciaMedia, f.quantidadeImoveis, sr.score, tipo, sr.risco, sr.motivos)
  }

  /** The FiiRankingDto CalcularTipoEMotivos builds to classify the fund. */
  function RankingTemporario(f: Fii): FiiRanking {
    ParaRanking(f, DetectarTipo(f.segmento))
  }

  /** The profile: the forced one when given, otherwise the computed one. */
  function PerfilFinal(f: Fii, forcado: Option<Perfil>): Perfil {
    match forcado
    case Some(p) => p
    case None => ClassificarPerfil(Some(RankingTemporario(f)))
  }

  /** The score reasons then the profile reasons, before clean-up. */
  function MotivosBrutos(f: Fii, forcado: Option<Perfil>, fmt: real -> string): seq<string> {
    var tipoFundo := DetectarTipo(f.segmento);
    var sr := Pontuar(f, tipoFundo);
    sr.motivos + MotivosPerfil(f, PerfilFinal(f, forcado), tipoFundo, sr.risco, sr.score, fmt)
  }

  /** CalcularTipoEMotivos: blank reasons dropped, duplicates (ignoring case) dropped. */
  function CalcularTipoEMotivos(f: Fii, forcado: Option<Perfil>, fmt: real -> string): (r: TipoEMotivos)
    ensures forcado.Some? ==> r.perfil == forcado.value
    ensures forcado.None? ==> r.perfil == ClassificarPerfil(Some(RankingTemporario(f)))
  {
    var perfilFinal := PerfilFinal(f, forcado);
    var arr := Limpar(MotivosBrutos(f, forcado, fmt));
    if |arr| == 0 then TipoEMotivos(perfilFinal, ["Classificado como '" + perfilFinal.Label() + "' pelas regras."])
    else TipoEMotivos(perfilFinal, arr)
  }

  /**
   * The reasons are never empty, never blank and never repeated ignoring case,
   * and every non-blank raw reason is kept in some spelling; the fallback after
   * the clean-up is never reached, because the profile reasons are never blank.
   */
  lemma {:induction false} TipoEMotivosFacts(f: Fii, forcado: Option<Perfil>, fmt: real -> string)
    ensures var r := CalcularTipoEMotivos(f, forcado, fmt);
      var brutos := MotivosBrutos(f, forcado, fmt);
      && r.motivos == Limpar(brutos)
      && |r.motivos| > 0
      && (forall i | 0 <= i < |r.motivos| :: !IsBlank(r.motivos[i]) && r.motivos[i] in brutos)
      && (forall i, j | 0 <= i < j < |r.motivos| :: ToUpper(r.motivos[i]) != ToUpper(r.motivos[j]))
      && (forall i | 0 <= i < |brutos| && !IsBlank(brutos[i]) :: ToUpper(brutos[i]) in Map(r.motivos, ToUpper))
  {
    var tipoFundo := DetectarTipo(f.segmento);
    var sr := Pontuar(f, tipoFundo);
    var mp := MotivosPerfil(f, PerfilFinal(f, forcado), tipoFundo, sr.risco, sr.score, fmt);
    var brutos := MotivosBrutos(f, forcado, fmt);
    assert brutos == sr.motivos + mp;
    CaudaNaoBranca(sr.motivos, mp);
    LimparFacts(brutos, |sr.motivos|);
    assert |Limpar(brutos)| > 0;
  }

  /** A list followed by a non-empty list without blanks has a non-blank entry just after the first part. */
  lemma {:induction false} CaudaNaoBranca(a: seq<string>, b: seq<string>)
    requires |b| > 0 && SemBrancos(b)
    ensures |a| < |a + b| && !IsBlank((a + b)[|a|])
  {
    assert (a + b)[|a|] == b[0];
  }

  /**
   * The detail of one fund: dividend per unit from the oracle, or 0 when it
   * has none, and the reasons, with a fallback when they are empty. The
   * fallback never applies: the reasons are the non-empty clean ones.
   */
  function Detalhar(dividendo: string -> Option<real>, f: Fii, forcado: Option<Perfil>, fmt: real -> string): (d: FiiDetalhe)
    ensures d.fii == f && d.tipo == CalcularTipoEMotivos(f, forcado, fmt).perfil
    ensures d.dividendoPorCota12m == if dividendo(f.papel).Some? then dividendo(f.papel).value else 0.0
    ensures d.motivos == CalcularTipoEMotivos(f, forcado, fmt).motivos && |d.motivos| > 0
  {
    var tm := CalcularTipoEMotivos(f, forcado, fmt);
    TipoEMotivosFacts(f, forcado, fmt);
    var motivos := if |tm.motivos| == 0 then ["Classificado como '" + tm.perfil.Label() + "' pelas regras."] else tm.motivos;
    FiiDetalhe(f, dividendo(f.papel).GetOr(0.0), tm.perfil, motivos)
  }
}
