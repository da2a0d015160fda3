/**
 * FiiScoreRules: asset-type detection, the TIJOLO (property) and PAPEL
 * (receivables) scores, the risk tier and the portfolio-profile classifier.
 */
module ScoreRules {
  import opened Wrappers
  import opened Decimals
  import opened Text
  import opened Domain

  // ---------------------------------------------------------------------
  // Label normalisation and type detection
  // ---------------------------------------------------------------------

  /** A combining diacritical mark (U+0300..U+036F, all non-spacing). */
  predicate IsCombiningMark(c: char) {
    '\U{300}' <= c <= '\U{36F}'
  }

  /** The base letter of a lower-case Latin-1 letter under canonical decomposition. */
  function BaseLetter(c: char): char {
    if '\U{E0}' <= c <= '\U{E5}' then 'a'        // à á â ã ä å
    else if c == '\U{E7}' then 'c'                // ç
    else if '\U{E8}' <= c <= '\U{EB}' then 'e'   // è é ê ë
    else if '\U{EC}' <= c <= '\U{EF}' then 'i'   // ì í î ï
    else if c == '\U{F1}' then 'n'                // ñ
    else if '\U{F2}' <= c <= '\U{F6}' then 'o'   // ò ó ô õ ö
    else if '\U{F9}' <= c <= '\U{FC}' then 'u'   // ù ú û ü
    else if c == '\U{FD}' || c == '\U{FF}' then 'y'  // ý ÿ
    else c
  }

  /** Decomposition followed by removal of the non-spacing marks. */
  function StripDiacritics(s: string): (r: string)
    ensures |r| <= |s|
  {
    if |s| == 0 then ""
    else if IsCombiningMark(s[0]) then StripDiacritics(s[1..])
    else [BaseLetter(s[0])] + StripDiacritics(s[1..])
  }

  /** Normalizar: blank -> ""; otherwise trimmed, lower-cased and without accents. */
  function Normalizar(s: string): (r: string)
    ensures IsBlank(s) ==> r == ""
  {
    if IsBlank(s) then "" else StripDiacritics(ToLower(Trim(s)))
  }

  predicate IndicaPapel(s: string) {
    Contains(s, "cri") || Contains(s, "receb") || Contains(s, "papel")
  }

  /** DetectarTipo: CRI / receivables / paper first, then hybrid, else TIJOLO. */
  function DetectarTipo(segmento: string): (t: Tipo)
    ensures t == Papel <==> IndicaPapel(Normalizar(segmento))
    ensures t == Hibrido <==> !IndicaPapel(Normalizar(segmento)) && Contains(Normalizar(segmento), "hibr")
  {
    var s := Normalizar(segmento);
    if IndicaPapel(s) then Papel
    else if Contains(s, "hibr") then Hibrido
    else Tijolo
  }

  /** A blank label carries no signal and falls to the catch-all TIJOLO. */
  lemma {:induction false} DetectarTipoBlank(segmento: string)
    requires IsBlank(segmento)
    ensures DetectarTipo(segmento) == Tijolo
  {
    EmptyContainsNothing("cri");
    EmptyContainsNothing("receb");
    EmptyContainsNothing("papel");
    EmptyContainsNothing("hibr");
  }

  /** The paper vocabulary wins over the hybrid one. */
  lemma {:induction false} DetectarTipoPapelVenceHibrido(segmento: string)
    requires Contains(Normalizar(segmento), "hibr") && Contains(Normalizar(segmento), "cri")
    ensures DetectarTipo(segmento) == Papel
  {
  }

  // ---------------------------------------------------------------------
  // Sub-scores (0..10)
  // ---------------------------------------------------------------------

  /** The values a sub-score can take. */
  predicate IsNota(n: real) {
    n == 0.0 || n == 4.0 || n == 6.0 || n == 7.0 || n == 8.0 || n == 10.0
  }

  function NotaVacanciaTijolo(vac: real): (n: real)
    ensures IsNota(n) && (vac <= 15.0 ==> n >= 6.0)
  {
    if vac <= 5.0 then 10.0
    else if vac <= 10.0 then 8.0
    else if vac <= 15.0 then 6.0
    else 0.0
  }

  function NotaLiquidez(liq: real): (n: real)
    ensures IsNota(n) && (liq >= 500000.0 ==> n >= 6.0)
  {
    if liq >= 2000000.0 then 10.0
    else if liq >= 1000000.0 then 8.0
    else if liq >= 500000.0 then 6.0
    else 0.0
  }

  function NotaValorMercado(vm: real): (n: real)
    ensures IsNota(n) && n >= 4.0
  {
    if vm >= 2000000000.0 then 10.0
    else if vm >= 1000000000.0 then 8.0
    else if vm >= 500000000.0 then 6.0
    else 4.0
  }

  function NotaDyTijolo(dy: real): (n: real)
    ensures IsNota(n) && n >= 4.0
  {
    if 8.0 <= dy <= 11.0 then 10.0
    else if 7.0 <= dy < 8.0 then 8.0
    else if 11.0 < dy <= 13.0 then 7.0
    else if 6.0 <= dy < 7.0 then 6.0
    else 4.0
  }

  function NotaDyPapel(dy: real): (n: real)
    ensures IsNota(n) && n >= 4.0
  {
    if 9.0 <= dy <= 13.5 then 10.0
    else if 8.0 <= dy < 9.0 then 8.0
    else if 13.5 < dy <= 16.0 then 7.0
    else 4.0
  }

  function NotaPvp(pvp: real): (n: real)
    ensures IsNota(n) && n >= 4.0
  {
    if 0.95 <= pvp <= 1.05 then 10.0
    else if 0.90 <= pvp < 0.95 then 8.0
    else if 1.05 < pvp <= 1.10 then 8.0
    else if 0.85 <= pvp < 0.90 then 6.0
    else if 1.10 < pvp <= 1.20 then 6.0
    else 4.0
  }

  function NotaQtdImoveis(qtd: int): (n: real)
    ensures IsNota(n) && n >= 4.0
  {
    if qtd >= 10 then 10.0
    else if qtd >= 5 then 8.0
    else if qtd >= 3 then 6.0
    else 4.0
  }

  /** More liquidity, larger market value, more properties never lower the sub-score. */
  lemma {:induction false} NotasMonotonas(a: real, b: real, qa: int, qb: int)
    requires a <= b && qa <= qb
    ensures NotaLiquidez(a) <= NotaLiquidez(b)
    ensures NotaValorMercado(a) <= NotaValorMercado(b)
    ensures NotaQtdImoveis(qa) <= NotaQtdImoveis(qb)
    ensures NotaVacanciaTijolo(a) >= NotaVacanciaTijolo(b)
  {
  }

  /**
   * BonusSegmentoTijolo: logistics and health +0.3, offices +0.1, the rest 0.
   * It is never negative, although the call site describes it as -0.3..+0.3.
   */
  function BonusSegmentoTijolo(segmento: string): (b: real)
    ensures b == 0.0 || b == 0.1 || b == 0.3
  {
    var s := Normalizar(segmento);
    if Contains(s, "log") then 0.3
    else if Contains(s, "hosp") || Contains(s, "saud") then 0.3
    else if Contains(s, "laje") || Contains(s, "escr") then 0.1
    else if Contains(s, "shop") then 0.0
    else 0.0
  }

  // ---------------------------------------------------------------------
  // Risk tier and clamp
  // ---------------------------------------------------------------------

  function ClassificarRisco(score: real): (r: Risco)
    ensures r != NaoAplicavel
    ensures r == Conservador <==> score >= 8.0
    ensures r == Arrojado <==> score < 6.5
  {
    if score >= 8.0 then Conservador
    else if score >= 6.5 then Moderado
    else Arrojado
  }

  /** Ordinal of a tier: the safer, the higher. */
  function NivelRisco(r: Risco): int {
    match r
    case Conservador => 2
    case Moderado => 1
    case Arrojado => 0
    case NaoAplicavel => -1
  }

  /** A higher score never gets a riskier tier. */
  lemma {:induction false} ClassificarRiscoMonotono(a: real, b: real)
    requires a <= b
    ensures NivelRisco(ClassificarRisco(a)) <= NivelRisco(ClassificarRisco(b))
  {
  }

  function Clamp(v: real, lo: real, hi: real): (r: real)
    requires lo <= hi
    ensures lo <= r <= hi
    ensures lo <= v <= hi ==> r == v
    ensures r == v || r == lo || r == hi
  {
    MaxReal(lo, MinReal(hi, v))
  }

  // ---------------------------------------------------------------------
  // Scores
  // ---------------------------------------------------------------------

  // Reasons reported with a score
  const ForaLiquidezTijolo := "Liquidez < 500k (fora do ranking)."
  const ForaDyTijolo := "DY < 6% (fora do ranking)."
  const ForaVacanciaTijolo := "Vacância > 15% (fora do ranking)."
  const ForaLiquidezPapel := "Liquidez < 400k (fora do ranking)."
  const ForaDyPapel := "DY < 8% (fora do ranking de papel)."
  const AlertaVacancia := "Vacância acima de 10%."
  const AlertaPvp := "P/VP esticado."
  const AlertaValorMercado := "Valor de mercado menor (mais volátil)."
  const AlertaLiquidez := "Liquidez moderada/baixa."
  const AlertaDyAlto := "DY muito alto (pode ser risco)."

  /** The (score, risco, motivos) triple the two scoring functions return. */
  datatype ScoreResult = ScoreResult(score: real, risco: Risco, motivos: seq<string>)

  /** The pre-filter of TIJOLO funds: the reason for the first threshold missed. */
  function PreFiltroTijolo(f: Fii): Option<string> {
    if f.liquidez < 500000.0 then Some(ForaLiquidezTijolo)
    else if f.dividendYield < 6.0 then Some(ForaDyTijolo)
    else if f.vacanciaMedia > 15.0 then Some(ForaVacanciaTijolo)
    else None
  }

  /** Vacancy 25%, liquidity 20%, market value 15%, DY 20%, P/VP 15%, properties 5%. */
  function SomaPonderadaTijolo(f: Fii): real {
    NotaVacanciaTijolo(f.vacanciaMedia) * 0.25
    + NotaLiquidez(f.liquidez) * 0.20
    + NotaValorMercado(f.valorMercado) * 0.15
    + NotaDyTijolo(f.dividendYield) * 0.20
    + NotaPvp(f.pvp) * 0.15
    + NotaQtdImoveis(f.quantidadeImoveis) * 0.05
  }

  /** The score before the clamp: weighted sum plus the segment bonus. */
  function BrutoTijolo(f: Fii): real {
    SomaPonderadaTijolo(f) + BonusSegmentoTijolo(f.segmento)
  }

  /** `m` followed by `motivo` when `cond` holds. */
  function AddSe(m: seq<string>, cond: bool, motivo: string): seq<string> {
    if cond then m + [motivo] else m
  }

  /** Risk flags of a TIJOLO fund, in the order they are reported. */
  function AlertasTijolo(f: Fii): seq<string> {
    var m1 := AddSe([], f.vacanciaMedia > 10.0, AlertaVacancia);
    var m2 := AddSe(m1, f.pvp > 1.15, AlertaPvp);
    var m3 := AddSe(m2, f.valorMercado < 1000000000.0, AlertaValorMercado);
    AddSe(m3, f.liquidez < 1000000.0, AlertaLiquidez)
  }

  /** ScoreTijolo as a value: pre-filter, else clamped sum, tier and flags. */
  function ScoreTijolo(f: Fii): (r: ScoreResult)
    ensures r.risco == NaoAplicavel <==> PreFiltroTijolo(f).Some?
    ensures PreFiltroTijolo(f).Some? ==> r.score == 0.0 && r.motivos == [PreFiltroTijolo(f).value]
  {
    match PreFiltroTijolo(f)
    case Some(motivo) => ScoreResult(0.0, NaoAplicavel, [motivo])
    case None =>
      var s := Clamp(BrutoTijolo(f), 0.0, 10.0);
      ScoreResult(Round2(s), ClassificarRisco(s), AlertasTijolo(f))
  }

  /** ScoreTijolo step by step, as the source builds its result. */
  method CalcularScoreTijolo(f: Fii) returns (score: real, risco: Risco, motivos: seq<string>)
    ensures ScoreResult(score, risco, motivos) == ScoreTijolo(f)
  {
    motivos := [];
    if f.liquidez < 500000.0 {
      assert ScoreTijolo(f).motivos == [ForaLiquidezTijolo];
      return 0.0, NaoAplicavel, [ForaLiquidezTijolo];
    }
    if f.dividendYield < 6.0 {
      assert ScoreTijolo(f).motivos == [ForaDyTijolo];
      return 0.0, NaoAplicavel, [ForaDyTijolo];
    }
    if f.vacanciaMedia > 15.0 {
      assert ScoreTijolo(f).motivos == [ForaVacanciaTijolo];
      return 0.0, NaoAplicavel, [ForaVacanciaTijolo];
    }
    assert PreFiltroTijolo(f).None?;

    var sVac := NotaVacanciaTijolo(f.vacanciaMedia);
    var sLiq := NotaLiquidez(f.liquidez);
    var sVm := NotaValorMercado(f.valorMercado);
    var sDy := NotaDyTijolo(f.dividendYield);
    var sPvp := NotaPvp(f.pvp);
    var sImo := NotaQtdImoveis(f.quantidadeImoveis);
    var sSeg := BonusSegmentoTijolo(f.segmento);

    var s := sVac * 0.25 + sLiq * 0.20 + sVm * 0.15 + sDy * 0.20 + sPvp * 0.15 + sImo * 0.05;
    assert s == SomaPonderadaTijolo(f);
    s := s + sSeg;
    s := Clamp(s, 0.0, 10.0);
    assert s == Clamp(BrutoTijolo(f), 0.0, 10.0);

    if f.vacanciaMedia > 10.0 { motivos := motivos + [AlertaVacancia]; }
    if f.pvp > 1.15 { motivos := motivos + [AlertaPvp]; }
    if f.valorMercado < 1000000000.0 { motivos := motivos + [AlertaValorMercado]; }
    if f.liquidez < 1000000.0 { motivos := motivos + [AlertaLiquidez]; }
    assert motivos == AlertasTijolo(f);

    risco := ClassificarRisco(s);
    score := Round2(s);
  }

  /** The pre-filter of PAPEL funds. */
  function PreFiltroPapel(f: Fii): Option<string> {
    if f.liquidez < 400000.0 then Some(ForaLiquidezPapel)
    else if f.dividendYield < 8.0 then Some(ForaDyPapel)
    else None
  }

  /** -0.3 when the vacancy is above 30 (likely not a paper fund, or bad data). */
  function PenalidadeVacanciaPapel(vac: real): real {
    if vac > 30.0 then -0.3 else 0.0
  }

  /** DY 35%, liquidity 25%, market value 20%, P/VP 20%. */
  function SomaPonderadaPapel(f: Fii): real {
    NotaDyPapel(f.dividendYield) * 0.35
    + NotaLiquidez(f.liquidez) * 0.25
    + NotaValorMercado(f.valorMercado) * 0.20
    + NotaPvp(f.pvp) * 0.20
  }

  function BrutoPapel(f: Fii): real {
    SomaPonderadaPapel(f) + PenalidadeVacanciaPapel(f.vacanciaMedia)
  }

  function AlertasPapel(f: Fii): seq<string> {
    var m1 := AddSe([], f.pvp > 1.15, AlertaPvp);
    var m2 := AddSe(m1, f.dividendYield > 16.0, AlertaDyAlto);
    AddSe(m2, f.liquidez < 800000.0, AlertaLiquidez)
  }

  function ScorePapel(f: Fii): (r: ScoreResult)
    ensures r.risco == NaoAplicavel <==> PreFiltroPapel(f).Some?
    ensures PreFiltroPapel(f).Some? ==> r.score == 0.0 && r.motivos == [PreFiltroPapel(f).value]
  {
    match PreFiltroPapel(f)
    case Some(motivo) => ScoreResult(0.0, NaoAplicavel, [motivo])
    case None =>
      var s := Clamp(BrutoPapel(f), 0.0, 10.0);
      ScoreResult(Round2(s), ClassificarRisco(s), AlertasPapel(f))
  }

  /** ScorePapel step by step, as the source builds its result. */
  method CalcularScorePapel(f: Fii) returns (score: real, risco: Risco, motivos: seq<string>)
    ensures ScoreResult(score, risco, motivos) == ScorePapel(f)
  {
    motivos := [];
    if f.liquidez < 400000.0 {
      assert ScorePapel(f).motivos == [ForaLiquidezPapel];
      return 0.0, NaoAplicavel, [ForaLiquidezPapel];
    }
    if f.dividendYield < 8.0 {
      assert ScorePapel(f).motivos == [ForaDyPapel];
      return 0.0, NaoAplicavel, [ForaDyPapel];
    }

    var sLiq := NotaLiquidez(f.liquidez);
    var sVm := NotaValorMercado(f.valorMercado);
    var sDy := NotaDyPapel(f.dividendYield);
    var sPvp := NotaPvp(f.pvp);
    var penVac := if f.vacanciaMedia > 30.0 then -0.3 else 0.0;

    var s := sDy * 0.35 + sLiq * 0.25 + sVm * 0.20 + sPvp * 0.20 + penVac;
    s := Clamp(s, 0.0, 10.0);

    if f.pvp > 1.15 { motivos := motivos + [AlertaPvp]; }
    if f.dividendYield > 16.0 { motivos := motivos + [AlertaDyAlto]; }
    if f.liquidez < 800000.0 { motivos := motivos + [AlertaLiquidez]; }
    assert motivos == AlertasPapel(f);

    risco := ClassificarRisco(s);
    score := Round2(s);
  }

  // ---------------------------------------------------------------------
  // Properties of the scores
  // ---------------------------------------------------------------------

  /** The integer a sub-score stands for. */
  function NotaInt(n: real): (k: int)
    requires IsNota(n)
    ensures k as real == n
  {
    if n == 0.0 then 0 else if n == 4.0 then 4 else if n == 6.0 then 6
    else if n == 7.0 then 7 else if n == 8.0 then 8 else 10
  }

  lemma {:induction false} TwentiethOfInt(x: real, k: int)
    requires x * 20.0 == k as real
    ensures IsTwentieth(x)
  {
    assert (k as real).Floor == k;
  }

  /** Every weight is a multiple of 0.05 and every sub-score an integer. */
  lemma {:induction false} BrutoTijoloIsTwentieth(f: Fii)
    ensures IsTwentieth(BrutoTijolo(f))
  {
    var a, b, c := NotaInt(NotaVacanciaTijolo(f.vacanciaMedia)), NotaInt(NotaLiquidez(f.liquidez)), NotaInt(NotaValorMercado(f.valorMercado));
    var d, e, g := NotaInt(NotaDyTijolo(f.dividendYield)), NotaInt(NotaPvp(f.pvp)), NotaInt(NotaQtdImoveis(f.quantidadeImoveis));
    var bonus := BonusSegmentoTijolo(f.segmento);
    var kb := if bonus == 0.3 then 6 else if bonus == 0.1 then 2 else 0;
    assert bonus * 20.0 == kb as real;
    var k := 5 * a + 4 * b + 3 * c + 4 * d + 3 * e + g + kb;
    assert BrutoTijolo(f) == a as real * 0.25 + b as real * 0.20 + c as real * 0.15 + d as real * 0.20
                             + e as real * 0.15 + g as real * 0.05 + bonus;
    TwentiethOfInt(BrutoTijolo(f), k);
  }

  lemma {:induction false} BrutoPapelIsTwentieth(f: Fii)
    ensures IsTwentieth(BrutoPapel(f))
  {
    var d, b := NotaInt(NotaDyPapel(f.dividendYield)), NotaInt(NotaLiquidez(f.liquidez));
    var c, e := NotaInt(NotaValorMercado(f.valorMercado)), NotaInt(NotaPvp(f.pvp));
    var kp := if f.vacanciaMedia > 30.0 then -6 else 0;
    var k := 7 * d + 5 * b + 4 * c + 4 * e + kp;
    assert BrutoPapel(f) == d as real * 0.35 + b as real * 0.25 + c as real * 0.20 + e as real * 0.20
                            + PenalidadeVacanciaPapel(f.vacanciaMedia);
    TwentiethOfInt(BrutoPapel(f), k);
  }

  lemma {:induction false} ClampTwentieth(x: real)
    requires IsTwentieth(x)
    ensures IsTwentieth(Clamp(x, 0.0, 10.0))
  {
    var r := Clamp(x, 0.0, 10.0);
    if r == 10.0 { assert r * 20.0 == 200 as real; }
  }

  /**
   * ScoreTijolo: exactly the funds the pre-filter rejects score 0 with risk
   * "N/A" and one reason; every other fund scores in (0, 10], on the 0.05 grid,
   * so the final rounding is exact and the tier agrees with the returned score.
   */
  lemma {:induction false} ScoreTijoloFacts(f: Fii)
    ensures var r := ScoreTijolo(f);
      && (r.score == 0.0 <==> PreFiltroTijolo(f).Some?)
      && (PreFiltroTijolo(f).Some? ==> r.risco == NaoAplicavel && |r.motivos| == 1)
      && (PreFiltroTijolo(f).None? ==>
            && BrutoTijolo(f) >= 4.9
            && 0.0 < r.score <= 10.0
            && IsTwentieth(r.score)
            && r.score == Clamp(BrutoTijolo(f), 0.0, 10.0)
            && r.risco == ClassificarRisco(r.score))
  {
    if PreFiltroTijolo(f).None? {
      var s := Clamp(BrutoTijolo(f), 0.0, 10.0);
      BrutoTijoloIsTwentieth(f);
      ClampTwentieth(BrutoTijolo(f));
      TwentiethIsCents(s);
      Round2OfCents(s);
    }
  }

  /** ScorePapel: the same shape, with floor 2.7 before the clamp. */
  lemma {:induction false} ScorePapelFacts(f: Fii)
    ensures var r := ScorePapel(f);
      && (r.score == 0.0 <==> PreFiltroPapel(f).Some?)
      && (PreFiltroPapel(f).Some? ==> r.risco == NaoAplicavel && |r.motivos| == 1)
      && (PreFiltroPapel(f).None? ==>
            && BrutoPapel(f) >= 2.7
            && 0.0 < r.score <= 10.0
            && IsTwentieth(r.score)
            && r.score == Clamp(BrutoPapel(f), 0.0, 10.0)
            && r.risco == ClassificarRisco(r.score))
  {
    if PreFiltroPapel(f).None? {
      var s := Clamp(BrutoPapel(f), 0.0, 10.0);
      BrutoPapelIsTwentieth(f);
      ClampTwentieth(BrutoPapel(f));
      TwentiethIsCents(s);
      Round2OfCents(s);
    }
  }

  /** The vacancy penalty of a paper fund is exactly 0.3 before the clamp. */
  lemma {:induction false} PenalidadePapelExata(f: Fii, vac: real)
    requires f.vacanciaMedia <= 30.0 < vac
    ensures BrutoPapel(f.(vacanciaMedia := vac)) == BrutoPapel(f) - 0.3
  {
  }

  /** Without combining marks, dropping diacritics is a letter-by-letter map. */
  lemma {:induction false} StripDiacriticsSemMarcas(s: string)
    requires forall i | 0 <= i < |s| :: !IsCombiningMark(s[i])
    ensures StripDiacritics(s) == seq(|s|, i requires 0 <= i < |s| => BaseLetter(s[i]))
  {
    if |s| > 0 {
      StripDiacriticsSemMarcas(s[1..]);
    }
  }

  /** A pattern with a letter the text lacks is not contained in it. */
  lemma {:induction false} NotContainsLetter(s: string, t: string, x: char)
    requires x in t && x !in s
    ensures !Contains(s, t)
    decreases |s|
  {
    if |t| <= |s| {
      assert x !in s[..|t|];
      if |s| > 0 {
        assert s == [s[0]] + s[1..];
        NotContainsLetter(s[1..], t, x);
      }
    }
  }

  lemma {:induction false} TrimLogistica(s: string)
    requires s == "Logística"
    ensures Trim(s) == s
  {
    TrimNoOp(s);
  }

  lemma {:induction false} LowerLogistica(s: string)
    requires s == "Logística"
    ensures ToLower(s) == "logística"
  {
    var l := ToLower(s);
    forall i | 0 <= i < 9 ensures l[i] == "logística"[i] {
    }
  }

  lemma {:induction false} StripLogistica(l: string)
    requires l == "logística"
    ensures StripDiacritics(l) == "logistica"
  {
    StripDiacriticsSemMarcas(l);
    assert BaseLetter('\U{ED}') == 'i';
  }

  lemma {:induction false} NormalizarLogistica(s: string)
    requires s == "Logística"
    ensures Normalizar(s) == "logistica"
  {
    assert !IsBlank(s) by { assert !IsWhiteSpace(s[0]); }
    TrimLogistica(s);
    LowerLogistica(s);
    StripLogistica(ToLower(s));
  }

  lemma {:induction false} VocabularioLogistica(n: string)
    requires n == "logistica"
    ensures !IndicaPapel(n) && !Contains(n, "hibr") && Contains(n, "log")
  {
    NotContainsLetter(n, "cri", 'r');
    NotContainsLetter(n, "receb", 'r');
    NotContainsLetter(n, "papel", 'p');
    NotContainsLetter(n, "hibr", 'h');
    ContainsAt(n, "log", 0);
  }

  /** "Logística" is a TIJOLO segment with the +0.3 bonus. */
  lemma {:induction false} SegmentoLogistica(seg: string)
    requires seg == "Logística"
    ensures DetectarTipo(seg) == Tijolo
    ensures BonusSegmentoTijolo(seg) == 0.3
  {
    NormalizarLogistica(seg);
    VocabularioLogistica(Normalizar(seg));
  }

  /** The worked example: a large, liquid logistics fund scores 10.00, Conservador. */
  lemma {:induction false} ExemploLogistica(f: Fii)
    requires f.liquidez == 2000000.0 && f.valorMercado == 2000000000.0
    requires f.dividendYield == 9.0 && f.pvp == 1.0 && f.vacanciaMedia == 5.0
    requires f.segmento == "Logística"
    ensures DetectarTipo(f.segmento) == Tijolo
    ensures ScoreTijolo(f) == ScoreResult(10.0, Conservador, [])
  {
    SegmentoLogistica(f.segmento);
    assert BrutoTijolo(f) >= 10.0;
    assert IsCents(10.0) by { assert 10.0 * 100.0 == 1000 as real; }
    Round2OfCents(10.0);
  }

  // ---------------------------------------------------------------------
  // Profile classification
  // ---------------------------------------------------------------------

  /** IsRiscoConfiavel: the "controlled risk" window. */
  predicate IsRiscoConfiavel(f: FiiRanking) {
    && f.score >= 6.5
    && f.score <= 7.7
    && f.liquidez >= 800000.0
    && f.valorMercado >= 600000000.0
    && f.dividendYield >= 9.0
    && f.pvp <= 1.10
  }

  /** ClassificarPerfil; `None` stands for a null argument. */
  function ClassificarPerfil(f: Option<FiiRanking>): (p: Perfil)
    ensures p == RiscoControlado <==> f.Some? && IsRiscoConfiavel(f.value)
    ensures p == Ancoragem <==> f.Some? && !IsRiscoConfiavel(f.value)
                                && f.value.score >= 8.0 && f.value.risco == Conservador
    ensures p == Potencial <==> f.Some? && !IsRiscoConfiavel(f.value)
                                && !(f.value.score >= 8.0 && f.value.risco == Conservador)
                                && 7.0 <= f.value.score < 8.0
  {
    match f
    case None => RiscoElevado
    case Some(x) =>
      if IsRiscoConfiavel(x) then RiscoControlado
      else if x.score >= 8.0 && EqualsIgnoreCase(x.risco.Label(), "Conservador") then Ancoragem
      else if x.score >= 7.0 && x.score < 8.0 then Potencial
      else RiscoElevado
  }

  /**
   * For a fund whose tier was computed from its score, the profile depends on
   * the score and the window alone: the window (score <= 7.7) and the anchor
   * (score >= 8) never overlap, so the precedence between them never decides;
   * the window does take precedence over "Potencial" on [7, 7.7].
   */
  lemma {:induction false} PerfilDeFundoPontuado(f: FiiRanking)
    requires f.risco == ClassificarRisco(f.score)
    ensures f.score >= 8.0 ==> ClassificarPerfil(Some(f)) == Ancoragem
    ensures IsRiscoConfiavel(f) ==> ClassificarPerfil(Some(f)) == RiscoControlado
    ensures 7.0 <= f.score < 8.0 && !IsRiscoConfiavel(f) ==> ClassificarPerfil(Some(f)) == Potencial
    ensures f.score < 7.0 && !IsRiscoConfiavel(f) ==> ClassificarPerfil(Some(f)) == RiscoElevado
  {
  }
}
