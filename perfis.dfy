/**
 * ObterCarteiraPorPerfisAsync: the total is apportioned over the four
 * profiles, a mixed ranking is split by profile, four greedy picks share one
 * used-ticker set, a ticker -> profile dictionary records the picks, and each
 * picked fund is detailed with its profile forced.
 */
module CarteiraPerfis {
  import opened Wrappers
  import opened Decimals
  import opened Text
  import opened Seqs
  import opened Domain
  import opened ScoreRules
  import opened Motivos
  import opened Ranking
  import opened Apportion
  import opened Selecao
  import Scraper

  // ---------------------------------------------------------------------
  // Splitting by profile and picking
  // ---------------------------------------------------------------------

  function ComPerfil(p: Perfil): FiiRanking -> bool {
    (x: FiiRanking) => ClassificarPerfil(Some(x)) == p
  }

  /** todosRank.Where(f => ClassificarPerfil(f) == p). */
  function DoPerfil(todos: seq<FiiRanking>, p: Perfil): seq<FiiRanking> {
    Filter(todos, ComPerfil(p))
  }

  /** The four picks. */
  datatype Selecoes = Selecoes(anc: seq<FiiRanking>, pot: seq<FiiRanking>, rc: seq<FiiRanking>, re: seq<FiiRanking>)

  /** The four Pick calls in Ancoragem, Potencial, Risco Controlado, Risco Elevado order, on one shared set. */
  function Selecionar(todos: seq<FiiRanking>, qa: int, qp: int, qrc: int, qre: int): Selecoes {
    var e1 := Escolher(DoPerfil(todos, Perfil.Ancoragem), qa, {});
    var e2 := Escolher(DoPerfil(todos, Potencial), qp, e1.usados);
    var e3 := Escolher(DoPerfil(todos, RiscoControlado), qrc, e2.usados);
    var e4 := Escolher(DoPerfil(todos, RiscoElevado), qre, e3.usados);
    Selecoes(e1.sel, e2.sel, e3.sel, e4.sel)
  }

  /** The picks as the service makes them, with one ignore-case HashSet. */
  method SelecionarPerfis(todos: seq<FiiRanking>, qa: int, qp: int, qrc: int, qre: int) returns (s: Selecoes)
    ensures s == Selecionar(todos, qa, qp, qrc, qre)
  {
    var usados := new TickerSet();
    var selAnc := Pick(DoPerfil(todos, Perfil.Ancoragem), qa, usados);
    var selPot := Pick(DoPerfil(todos, Potencial), qp, usados);
    var selRC := Pick(DoPerfil(todos, RiscoControlado), qrc, usados);
    var selRE := Pick(DoPerfil(todos, RiscoElevado), qre, usados);
    s := Selecoes(selAnc, selPot, selRC, selRE);
  }

  /** selAnc.Concat(selPot).Concat(selRC).Concat(selRE). */
  function Todos(s: Selecoes): seq<FiiRanking> {
    s.anc + s.pot + s.rc + s.re
  }

  /** The profile the pick at position i of Todos(s) was made for. */
  function PerfilNaPosicao(s: Selecoes, i: int): Perfil {
    if i < |s.anc| then Perfil.Ancoragem
    else if i < |s.anc| + |s.pot| then Potencial
    else if i < |s.anc| + |s.pot| + |s.rc| then RiscoControlado
    else RiscoElevado
  }

  // ---------------------------------------------------------------------
  // The ticker -> profile dictionary (OrdinalIgnoreCase)
  // ---------------------------------------------------------------------

  /** foreach (var x in sel) perfilPorPapel[x.Papel] = rotulo. */
  function Atribuir(d: Scraper.Row, sel: seq<FiiRanking>, rotulo: string): Scraper.Row
    decreases |sel|
  {
    if |sel| == 0 then d
    else Atribuir(Scraper.SetEntry(d, sel[0].papel, rotulo), sel[1..], rotulo)
  }

  /** One foreach loop, assigning in place. */
  method AtribuirTodos(d0: Scraper.Row, sel: seq<FiiRanking>, rotulo: string) returns (d: Scraper.Row)
    ensures d == Atribuir(d0, sel, rotulo)
  {
    d := d0;
    var i := 0;
    while i < |sel|
      invariant 0 <= i <= |sel|
      invariant Atribuir(d, sel[i..], rotulo) == Atribuir(d0, sel, rotulo)
    {
      assert sel[i..][1..] == sel[i + 1..];
      d := Scraper.SetEntry(d, sel[i].papel, rotulo);
      i := i + 1;
    }
  }

  /** The dictionary after the four loops. */
  function PerfisPorPapel(s: Selecoes): Scraper.Row {
    var d1 := Atribuir([], s.anc, Perfil.Ancoragem.Label());
    var d2 := Atribuir(d1, s.pot, Potencial.Label());
    var d3 := Atribuir(d2, s.rc, RiscoControlado.Label());
    Atribuir(d3, s.re, RiscoElevado.Label())
  }

  method PreencherPerfis(s: Selecoes) returns (d: Scraper.Row)
    ensures d == PerfisPorPapel(s)
  {
    d := AtribuirTodos([], s.anc, Perfil.Ancoragem.Label());
    d := AtribuirTodos(d, s.pot, Potencial.Label());
    d := AtribuirTodos(d, s.rc, RiscoControlado.Label());
    d := AtribuirTodos(d, s.re, RiscoElevado.Label());
  }

  /** The profile a label names; the dictionary holds only the four labels. */
  function RotuloParaPerfil(r: string): (p: Option<Perfil>)
    ensures p.Some? ==> p.value.Label() == r
  {
    if r == Perfil.Ancoragem.Label() then Some(Perfil.Ancoragem)
    else if r == Potencial.Label() then Some(Potencial)
    else if r == RiscoControlado.Label() then Some(RiscoControlado)
    else if r == RiscoElevado.Label() then Some(RiscoElevado)
    else None
  }

  /** TryGetValue, then the IsNullOrWhiteSpace test of CalcularTipoEMotivos. */
  function Forcado(d: Scraper.Row, papel: string): Option<Perfil> {
    match Scraper.Lookup(d, papel)
    case None => None
    case Some(r) => if IsBlank(r) then None else RotuloParaPerfil(r)
  }

  // ---------------------------------------------------------------------
  // The funds behind the picks
  // ---------------------------------------------------------------------

  function NoMapa(d: Scraper.Row): Fii -> bool {
    (f: Fii) => Scraper.Lookup(d, f.papel).Some?
  }

  /**
   * mapFii[p]: the fund whose ticker equals p ignoring case. The dictionary
   * is only built when those tickers are distinct, so the first is the one.
   */
  function ComPapel(cands: seq<Fii>, p: string): (r: Option<Fii>)
    ensures r.Some? ==> r.value in cands && EqualsIgnoreCase(r.value.papel, p)
    ensures r.None? ==> forall i | 0 <= i < |cands| :: !EqualsIgnoreCase(cands[i].papel, p)
  {
    if |cands| == 0 then None
    else if EqualsIgnoreCase(cands[0].papel, p) then Some(cands[0])
    else
      assert forall i | 1 <= i < |cands| :: cands[i] == cands[1..][i - 1];
      ComPapel(cands[1..], p)
  }

  /** papeisOrdenados.Where(mapFii.ContainsKey).Select(p => mapFii[p]). */
  function Selecionados(cands: seq<Fii>, papeis: seq<string>): seq<Fii> {
    if |papeis| == 0 then []
    else
      (match ComPapel(cands, papeis[0]) case Some(f) => [f] case None => [])
      + Selecionados(cands, papeis[1..])
  }

  function PapelEscolhido(x: FiiRanking): string {
    x.papel
  }

  /** The detail of a picked fund, with the profile it was picked for forced. */
  function DetalheForcado(dividendo: string -> Option<real>, d: Scraper.Row, fmt: real -> string): Fii -> FiiDetalhe {
    (f: Fii) => Detalhar(dividendo, f, Forcado(d, f.papel), fmt)
  }

  /** The dictionary, the fund lookup and the details for given picks. */
  function Resposta(all: seq<Fii>, req: CarteiraPerfisRequest, s: Selecoes, d: Scraper.Row,
                    dividendo: string -> Option<real>, fmt: real -> string): Result<CarteiraPerfisResponse, Erro> {
    var cands := Filter(all, NoMapa(d));
    match RepetidoPor(Map(cands, PapelDe), {})
    case Some(p) => Failure(PapelDuplicado(p))
    case None =>
      var fiis := Selecionados(cands, Map(Todos(s), PapelEscolhido));
      Success(CarteiraPerfisResponse(req.ancoragemPercentual, req.potencialPercentual,
        req.riscoControladoPercentual, req.riscoElevadoPercentual, req.totalFiis,
        Map(fiis, DetalheForcado(dividendo, d, fmt))))
  }

  function SomaPerfis(req: CarteiraPerfisRequest): real {
    Round2(req.ancoragemPercentual + req.potencialPercentual + req.riscoControladoPercentual + req.riscoElevadoPercentual)
  }

  /** CalcularQuantidades4 over the four percentages. */
  function QuantidadesPerfis(req: CarteiraPerfisRequest): seq<int> {
    Quantidades(req.totalFiis, [req.ancoragemPercentual, req.potencialPercentual,
      req.riscoControladoPercentual, req.riscoElevadoPercentual], ChavesPerfis)
  }

  /** The picks for a request: the mixed ranking of max(150, total * 12), split and picked. */
  function SelecoesDe(all: seq<Fii>, req: CarteiraPerfisRequest): Selecoes
    requires req.totalFiis > 0
  {
    var q := QuantidadesPerfis(req);
    Selecionar(RankingMisto(all, Max(150, req.totalFiis * 12)), q[0], q[1], q[2], q[3])
  }

  /** ObterCarteiraPorPerfisAsync. */
  function PorPerfis(all: seq<Fii>, req: CarteiraPerfisRequest, dividendo: string -> Option<real>, fmt: real -> string)
    : (r: Result<CarteiraPerfisResponse, Erro>)
    ensures req.totalFiis <= 0 ==> r == Failure(TotalNaoPositivo)
    ensures req.totalFiis > 0 && SomaPerfis(req) != 100.0 ==> r == Failure(SomaDiferenteDeCem(SomaPerfis(req)))
    ensures r.Failure? ==> r.error.IsArgumentException()
  {
    if req.totalFiis <= 0 then Failure(TotalNaoPositivo)
    else if SomaPerfis(req) != 100.0 then Failure(SomaDiferenteDeCem(SomaPerfis(req)))
    else
      var s := SelecoesDe(all, req);
      Resposta(all, req, s, PerfisPorPapel(s), dividendo, fmt)
  }

  /** The entry point with its loops: the counting, the picks and the dictionary. */
  method ObterCarteiraPorPerfis(all: seq<Fii>, req: CarteiraPerfisRequest, dividendo: string -> Option<real>, fmt: real -> string)
    returns (r: Result<CarteiraPerfisResponse, Erro>)
    ensures r == PorPerfis(all, req, dividendo, fmt)
  {
    if req.totalFiis <= 0 {
      return Failure(TotalNaoPositivo);
    }
    var soma := Round2(req.ancoragemPercentual + req.potencialPercentual + req.riscoControladoPercentual + req.riscoElevadoPercentual);
    if soma != 100.0 {
      return Failure(SomaDiferenteDeCem(soma));
    }
    var qAnc, qPot, qRC, qRE := CalcularQuantidades4(req.totalFiis, req.ancoragemPercentual, req.potencialPercentual,
      req.riscoControladoPercentual, req.riscoElevadoPercentual);
    var todosRank := RankingMisto(all, Max(150, req.totalFiis * 12));
    var s := SelecionarPerfis(todosRank, qAnc, qPot, qRC, qRE);
    var perfilPorPapel := PreencherPerfis(s);
    r := Resposta(all, req, s, perfilPorPapel, dividendo, fmt);
  }

  // ---------------------------------------------------------------------
  // Properties of the picks
  // ---------------------------------------------------------------------

  /** The pick made for profile p. */
  function SelDe(s: Selecoes, p: Perfil): seq<FiiRanking> {
    match p
    case Ancoragem => s.anc
    case Potencial => s.pot
    case RiscoControlado => s.rc
    case RiscoElevado => s.re
  }

  /** No ticker is picked for two profiles. */
  predicate Disjuntas(s: Selecoes) {
    && Chaves(s.anc) !! Chaves(s.pot) && Chaves(s.anc) !! Chaves(s.rc) && Chaves(s.anc) !! Chaves(s.re)
    && Chaves(s.pot) !! Chaves(s.rc) && Chaves(s.pot) !! Chaves(s.re)
    && Chaves(s.rc) !! Chaves(s.re)
  }

  lemma {:induction false} ChavesFora(sel: seq<FiiRanking>, u: set<string>)
    requires forall i | 0 <= i < |sel| :: Chave(sel[i].papel) !in u
    ensures Chaves(sel) !! u
  {
    forall y | y in Chaves(sel) ensures y !in u {
      var i :| 0 <= i < |sel| && y == Chave(sel[i].papel);
    }
  }

  /** One pick avoids the used set, repeats nothing, and adds exactly its tickers to the set. */
  lemma {:induction false} EscolhaFora(fonte: seq<FiiRanking>, q: int, u: set<string>)
    ensures var e := Escolher(fonte, q, u);
      Chaves(e.sel) !! u && SemRepetidos(e.sel) && e.usados == u + Chaves(e.sel)
  {
    EscolherFacts(fonte, q, u);
    ChavesFora(Escolher(fonte, q, u).sel, u);
  }

  /**
   * The shared set makes the four picks pairwise disjoint, and no pick repeats
   * a ticker: each pick avoids every ticker the earlier ones added.
   */
  lemma {:induction false} SelecoesDisjuntas(todos: seq<FiiRanking>, qa: int, qp: int, qrc: int, qre: int)
    ensures var s := Selecionar(todos, qa, qp, qrc, qre);
      && Disjuntas(s)
      && SemRepetidos(s.anc) && SemRepetidos(s.pot) && SemRepetidos(s.rc) && SemRepetidos(s.re)
  {
    var e1 := Escolher(DoPerfil(todos, Perfil.Ancoragem), qa, {});
    var e2 := Escolher(DoPerfil(todos, Potencial), qp, e1.usados);
    var e3 := Escolher(DoPerfil(todos, RiscoControlado), qrc, e2.usados);
    EscolhaFora(DoPerfil(todos, Perfil.Ancoragem), qa, {});
    EscolhaFora(DoPerfil(todos, Potencial), qp, e1.usados);
    EscolhaFora(DoPerfil(todos, RiscoControlado), qrc, e2.usados);
    EscolhaFora(DoPerfil(todos, RiscoElevado), qre, e3.usados);
  }

  /** One pick from a profile's list: in order, within its quota, and only funds of that profile. */
  lemma {:induction false} EscolhaDoPerfil(todos: seq<FiiRanking>, p: Perfil, q: int, u: set<string>)
    ensures var sel := Escolher(DoPerfil(todos, p), q, u).sel;
      && IsSubsequence(sel, DoPerfil(todos, p))
      && |sel| <= Max(q, 0)
      && forall i | 0 <= i < |sel| :: sel[i] in todos && ClassificarPerfil(Some(sel[i])) == p
  {
    var sel := Escolher(DoPerfil(todos, p), q, u).sel;
    EscolherFacts(DoPerfil(todos, p), q, u);
    SubsequenceMembers(sel, DoPerfil(todos, p));
  }

  /** Each pick is an in-order part of its profile's list, within its quota, and only holds funds of that profile. */
  lemma {:induction false} SelecoesDoPerfil(todos: seq<FiiRanking>, qa: int, qp: int, qrc: int, qre: int, p: Perfil)
    ensures var s := Selecionar(todos, qa, qp, qrc, qre);
      var q := match p case Ancoragem => qa case Potencial => qp case RiscoControlado => qrc case RiscoElevado => qre;
      && IsSubsequence(SelDe(s, p), DoPerfil(todos, p))
      && |SelDe(s, p)| <= Max(q, 0)
      && forall i | 0 <= i < |SelDe(s, p)| :: SelDe(s, p)[i] in todos && ClassificarPerfil(Some(SelDe(s, p)[i])) == p
  {
    var e1 := Escolher(DoPerfil(todos, Perfil.Ancoragem), qa, {});
    var e2 := Escolher(DoPerfil(todos, Potencial), qp, e1.usados);
    var e3 := Escolher(DoPerfil(todos, RiscoControlado), qrc, e2.usados);
    match p
    case Ancoragem => EscolhaDoPerfil(todos, p, qa, {});
    case Potencial => EscolhaDoPerfil(todos, p, qp, e1.usados);
    case RiscoControlado => EscolhaDoPerfil(todos, p, qrc, e2.usados);
    case RiscoElevado => EscolhaDoPerfil(todos, p, qre, e3.usados);
  }

  /** Disjoint parts without repeats join without repeats. */
  lemma {:induction false} SemRepetidosConcat(a: seq<FiiRanking>, b: seq<FiiRanking>)
    requires SemRepetidos(a) && SemRepetidos(b) && Chaves(a) !! Chaves(b)
    ensures SemRepetidos(a + b)
    ensures Chaves(a + b) == Chaves(a) + Chaves(b)
  {
    var c := a + b;
    forall i, j | 0 <= i < j < |c| ensures Chave(c[i].papel) != Chave(c[j].papel) {
      if j >= |a| && i < |a| {
        assert c[j] == b[j - |a|];
        assert Chave(c[i].papel) in Chaves(a);
        assert Chave(c[j].papel) in Chaves(b);
      } else if i >= |a| {
        assert c[i] == b[i - |a|] && c[j] == b[j - |a|];
      }
    }
    forall y | y in Chaves(c) ensures y in Chaves(a) + Chaves(b) {
      var i :| 0 <= i < |c| && y == Chave(c[i].papel);
      if i >= |a| {
        assert c[i] == b[i - |a|];
      }
    }
    forall y | y in Chaves(a) + Chaves(b) ensures y in Chaves(c) {
      if y in Chaves(a) {
        var i :| 0 <= i < |a| && y == Chave(a[i].papel);
        assert c[i] == a[i];
      } else {
        var i :| 0 <= i < |b| && y == Chave(b[i].papel);
        assert c[|a| + i] == b[i];
      }
    }
  }

  /** All four picks together never hold a ticker twice, ignoring case. */
  lemma {:induction false} TodosSemRepetidos(todos: seq<FiiRanking>, qa: int, qp: int, qrc: int, qre: int)
    ensures SemRepetidos(Todos(Selecionar(todos, qa, qp, qrc, qre)))
  {
    var s := Selecionar(todos, qa, qp, qrc, qre);
    SelecoesDisjuntas(todos, qa, qp, qrc, qre);
    SemRepetidosConcat(s.anc, s.pot);
    SemRepetidosConcat(s.anc + s.pot, s.rc);
    SemRepetidosConcat(s.anc + s.pot + s.rc, s.re);
  }

  // ---------------------------------------------------------------------
  // Properties of the dictionary
  // ---------------------------------------------------------------------

  /** After one loop, a picked ticker reads back the loop's label; any other keeps its value. */
  lemma {:induction false} AtribuirLookup(d: Scraper.Row, sel: seq<FiiRanking>, rotulo: string, k: string)
    ensures Chave(k) in Chaves(sel) ==> Scraper.Lookup(Atribuir(d, sel, rotulo), k) == Some(rotulo)
    ensures Chave(k) !in Chaves(sel) ==> Scraper.Lookup(Atribuir(d, sel, rotulo), k) == Scraper.Lookup(d, k)
    decreases |sel|
  {
    if |sel| > 0 {
      var d1 := Scraper.SetEntry(d, sel[0].papel, rotulo);
      assert sel == [sel[0]] + sel[1..];
      ChavesCons(sel[0], sel[1..]);
      Scraper.LookupSetEntry(d, sel[0].papel, rotulo, k);
      AtribuirLookup(d1, sel[1..], rotulo, k);
    }
  }

  /** The labels are not blank and read back as their profiles. */
  lemma {:induction false} RotuloDoPerfil(p: Perfil)
    ensures !IsBlank(p.Label()) && RotuloParaPerfil(p.Label()) == Some(p)
  {
    assert !IsWhiteSpace(p.Label()[0]);
  }

  /** With disjoint picks, the dictionary maps each picked ticker to the profile it was picked for. */
  lemma {:induction false} PerfisPorPapelLookup(s: Selecoes, p: Perfil, k: string)
    requires Disjuntas(s) && Chave(k) in Chaves(SelDe(s, p))
    ensures Scraper.Lookup(PerfisPorPapel(s), k) == Some(p.Label())
    ensures Forcado(PerfisPorPapel(s), k) == Some(p)
  {
    var d1 := Atribuir([], s.anc, Perfil.Ancoragem.Label());
    var d2 := Atribuir(d1, s.pot, Potencial.Label());
    var d3 := Atribuir(d2, s.rc, RiscoControlado.Label());
    AtribuirLookup([], s.anc, Perfil.Ancoragem.Label(), k);
    AtribuirLookup(d1, s.pot, Potencial.Label(), k);
    AtribuirLookup(d2, s.rc, RiscoControlado.Label(), k);
    AtribuirLookup(d3, s.re, RiscoElevado.Label(), k);
    RotuloDoPerfil(p);
  }

  // ---------------------------------------------------------------------
  // Properties of the response
  // ---------------------------------------------------------------------

  /** A fund of the mixed ranking comes from the listing under the same ticker. */
  lemma {:induction false} NoUniverso(all: seq<Fii>, top: int, x: FiiRanking)
    requires x in RankingMisto(all, top)
    ensures exists f | f in all :: f.papel == x.papel
  {
    var per := PorTipoMisto(top);
    RankingMistoFacts(all, top);
    var r := RankingMisto(all, top);
    var i :| 0 <= i < |r| && r[i] == x;
    var tipo := if x in RankingPorTipo(all, Tijolo, per) then Tijolo else Papel;
    RankingPorTipoFacts(all, tipo, per);
    var rt := RankingPorTipo(all, tipo, per);
    var j :| 0 <= j < |rt| && rt[j] == x;
    CandidatosFacts(all, tipo);
    var f :| f in all && DetectarTipo(f.segmento) == tipo && x == ParaRanking(f, tipo);
  }

  /** When every ticker finds its fund, the lookup keeps them all, in order. */
  lemma {:induction false} SelecionadosCompleto(cands: seq<Fii>, papeis: seq<string>)
    requires forall i | 0 <= i < |papeis| :: ComPapel(cands, papeis[i]).Some?
    ensures |Selecionados(cands, papeis)| == |papeis|
    ensures forall i | 0 <= i < |papeis| :: Selecionados(cands, papeis)[i] == ComPapel(cands, papeis[i]).value
    decreases |papeis|
  {
    if |papeis| > 0 {
      assert forall i | 1 <= i < |papeis| :: papeis[i] == papeis[1..][i - 1];
      SelecionadosCompleto(cands, papeis[1..]);
    }
  }

  /** The pick at position i of Todos(s) belongs to the pick of its profile. */
  lemma {:induction false} NaPosicao(s: Selecoes, i: nat)
    requires i < |Todos(s)|
    ensures Todos(s)[i] in SelDe(s, PerfilNaPosicao(s, i))
    ensures Chave(Todos(s)[i].papel) in Chaves(SelDe(s, PerfilNaPosicao(s, i)))
  {
    var t := Todos(s);
    var na, np, nr := |s.anc|, |s.pot|, |s.rc|;
    var sj: (seq<FiiRanking>, int) := if i < na then (s.anc, i) else if i < na + np then (s.pot, i - na)
      else if i < na + np + nr then (s.rc, i - na - np) else (s.re, i - na - np - nr);
    var sel, j := sj.0, sj.1;
    assert sel == SelDe(s, PerfilNaPosicao(s, i)) && 0 <= j < |sel|;
    assert t[i] == sel[j];
    assert Chave(sel[j].papel) in Chaves(sel);
  }

  /** The ticker of every pick finds a fund among the listing's funds the dictionary holds. */
  lemma {:induction false} PapelEncontrado(all: seq<Fii>, req: CarteiraPerfisRequest, i: nat)
    requires req.totalFiis > 0 && i < |Todos(SelecoesDe(all, req))|
    ensures var s := SelecoesDe(all, req);
      ComPapel(Filter(all, NoMapa(PerfisPorPapel(s))), Todos(s)[i].papel).Some?
  {
    var q := QuantidadesPerfis(req);
    var top := Max(150, req.totalFiis * 12);
    var todos := RankingMisto(all, top);
    var s := SelecoesDe(all, req);
    var p := PerfilNaPosicao(s, i);
    var x := Todos(s)[i];
    var d := PerfisPorPapel(s);
    SelecoesDisjuntas(todos, q[0], q[1], q[2], q[3]);
    SelecoesDoPerfil(todos, q[0], q[1], q[2], q[3], p);
    NaPosicao(s, i);
    var sel := SelDe(s, p);
    var j :| 0 <= j < |sel| && Chave(x.papel) == Chave(sel[j].papel);
    NoUniverso(all, top, sel[j]);
    var f :| f in all && f.papel == sel[j].papel;
    PerfisPorPapelLookup(s, p, f.papel);
    assert NoMapa(d)(f);
    var cands := Filter(all, NoMapa(d));
    assert f in cands;
  }

  /** The picks of a request are disjoint. */
  lemma {:induction false} SelecoesDeDisjuntas(all: seq<Fii>, req: CarteiraPerfisRequest)
    requires req.totalFiis > 0
    ensures Disjuntas(SelecoesDe(all, req))
  {
    var q := QuantidadesPerfis(req);
    SelecoesDisjuntas(RankingMisto(all, Max(150, req.totalFiis * 12)), q[0], q[1], q[2], q[3]);
  }

  /** A fund whose ticker matches the pick at position i is detailed with that pick's profile. */
  lemma {:induction false} ItemForcado(s: Selecoes, g: Fii, i: nat, dividendo: string -> Option<real>, fmt: real -> string)
    requires Disjuntas(s) && i < |Todos(s)| && EqualsIgnoreCase(g.papel, Todos(s)[i].papel)
    ensures DetalheForcado(dividendo, PerfisPorPapel(s), fmt)(g).tipo == PerfilNaPosicao(s, i)
  {
    NaPosicao(s, i);
    PerfisPorPapelLookup(s, PerfilNaPosicao(s, i), g.papel);
  }

  /** The response for disjoint picks whose tickers all find a fund. */
  lemma {:induction false} RespostaItens(all: seq<Fii>, req: CarteiraPerfisRequest, s: Selecoes,
                                         dividendo: string -> Option<real>, fmt: real -> string)
    requires Disjuntas(s)
    requires forall i | 0 <= i < |Todos(s)| :: ComPapel(Filter(all, NoMapa(PerfisPorPapel(s))), Todos(s)[i].papel).Some?
    requires Resposta(all, req, s, PerfisPorPapel(s), dividendo, fmt).Success?
    ensures var r := Resposta(all, req, s, PerfisPorPapel(s), dividendo, fmt).value;
      && |r.itens| == |Todos(s)|
      && forall i | 0 <= i < |r.itens| ::
           && r.itens[i].fii in all
           && EqualsIgnoreCase(r.itens[i].fii.papel, Todos(s)[i].papel)
           && r.itens[i].tipo == PerfilNaPosicao(s, i)
  {
    var d := PerfisPorPapel(s);
    var cands := Filter(all, NoMapa(d));
    var t := Todos(s);
    var papeis := Map(t, PapelEscolhido);
    SelecionadosCompleto(cands, papeis);
    var fiis := Selecionados(cands, papeis);
    forall i | 0 <= i < |t|
      ensures fiis[i] in all && EqualsIgnoreCase(fiis[i].papel, t[i].papel)
      ensures DetalheForcado(dividendo, d, fmt)(fiis[i]).tipo == PerfilNaPosicao(s, i)
    {
      ItemForcado(s, fiis[i], i, dividendo, fmt);
    }
  }

  /**
   * When the request passes and the tickers are distinct, the response lists
   * exactly the picked funds, in Ancoragem, Potencial, Risco Controlado, Risco
   * Elevado order: each item is the listing's fund with the picked ticker, and
   * its profile is the one it was picked for.
   */
  lemma {:induction false} PorPerfisItens(all: seq<Fii>, req: CarteiraPerfisRequest, dividendo: string -> Option<real>, fmt: real -> string)
    requires PorPerfis(all, req, dividendo, fmt).Success?
    ensures req.totalFiis > 0 && SomaPerfis(req) == 100.0
    ensures var r := PorPerfis(all, req, dividendo, fmt).value;
      var s := SelecoesDe(all, req);
      && |r.itens| == |Todos(s)|
      && forall i | 0 <= i < |r.itens| ::
           && r.itens[i].fii in all
           && EqualsIgnoreCase(r.itens[i].fii.papel, Todos(s)[i].papel)
           && r.itens[i].tipo == PerfilNaPosicao(s, i)
  {
    var s := SelecoesDe(all, req);
    forall i | 0 <= i < |Todos(s)| ensures ComPapel(Filter(all, NoMapa(PerfisPorPapel(s))), Todos(s)[i].papel).Some? {
      PapelEncontrado(all, req, i);
    }
    SelecoesDeDisjuntas(all, req);
    RespostaItens(all, req, s, dividendo, fmt);
  }

  /** On a request that passes its checks, the response fails exactly when two funds of the dictionary share a ticker ignoring case. */
  lemma {:induction false} RespostaFalha(all: seq<Fii>, req: CarteiraPerfisRequest, s: Selecoes, d: Scraper.Row,
                                         dividendo: string -> Option<real>, fmt: real -> string)
    ensures var r := Resposta(all, req, s, d, dividendo, fmt);
      var ps := Map(Filter(all, NoMapa(d)), PapelDe);
      && (r.Failure? <==> !DistintosIgnoreCase(ps))
      && (r.Failure? ==> r.error.PapelDuplicado? && r.error.papel in ps)
  {
    RepetidoPorFacts(Map(Filter(all, NoMapa(d)), PapelDe), {});
  }

  /**
   * Past the total and sum checks, the profile portfolio fails exactly when
   * two funds of the listing that the dictionary holds share a ticker ignoring
   * case (the ToDictionary that builds mapFii throws), and then it names one of
   * their tickers; otherwise it succeeds.
   */
  lemma {:induction false} PorPerfisFalha(all: seq<Fii>, req: CarteiraPerfisRequest, dividendo: string -> Option<real>, fmt: real -> string)
    requires req.totalFiis > 0 && SomaPerfis(req) == 100.0
    ensures var r := PorPerfis(all, req, dividendo, fmt);
      var ps := Map(Filter(all, NoMapa(PerfisPorPapel(SelecoesDe(all, req)))), PapelDe);
      && (r.Failure? <==> !DistintosIgnoreCase(ps))
      && (r.Failure? ==> r.error.PapelDuplicado? && r.error.papel in ps)
  {
    var s := SelecoesDe(all, req);
    RespostaFalha(all, req, s, PerfisPorPapel(s), dividendo, fmt);
  }

  /** The picks of a request hold no ticker twice. */
  lemma {:induction false} SelecoesDeSemRepetidos(all: seq<Fii>, req: CarteiraPerfisRequest)
    requires req.totalFiis > 0
    ensures SemRepetidos(Todos(SelecoesDe(all, req)))
  {
    var q := QuantidadesPerfis(req);
    TodosSemRepetidos(RankingMisto(all, Max(150, req.totalFiis * 12)), q[0], q[1], q[2], q[3]);
  }

  /** No two items of a profile portfolio have the same ticker, ignoring case. */
  lemma {:induction false} PorPerfisSemRepetidos(all: seq<Fii>, req: CarteiraPerfisRequest, dividendo: string -> Option<real>, fmt: real -> string)
    requires PorPerfis(all, req, dividendo, fmt).Success?
    ensures var it := PorPerfis(all, req, dividendo, fmt).value.itens;
      forall i, j | 0 <= i < j < |it| :: !EqualsIgnoreCase(it[i].fii.papel, it[j].fii.papel)
  {
    PorPerfisItens(all, req, dividendo, fmt);
    SelecoesDeSemRepetidos(all, req);
  }

  /** The fund at position i of the picks was classified, by the score rules, as the profile of its pick. */
  lemma {:induction false} TodosClassificados(all: seq<Fii>, req: CarteiraPerfisRequest, i: nat)
    requires req.totalFiis > 0 && i < |Todos(SelecoesDe(all, req))|
    ensures var s := SelecoesDe(all, req);
      ClassificarPerfil(Some(Todos(s)[i])) == PerfilNaPosicao(s, i)
      && Todos(s)[i] in RankingMisto(all, Max(150, req.totalFiis * 12))
  {
    var q := QuantidadesPerfis(req);
    var s := SelecoesDe(all, req);
    NaPosicao(s, i);
    SelecoesDoPerfil(RankingMisto(all, Max(150, req.totalFiis * 12)), q[0], q[1], q[2], q[3], PerfilNaPosicao(s, i));
  }

  /**
   * Every item of a profile portfolio is a fund of the listing whose ranking
   * entry the score rules classify as the item's profile: the forced profile
   * never contradicts the classification.
   */
  lemma {:induction false} PorPerfisClassificados(all: seq<Fii>, req: CarteiraPerfisRequest, dividendo: string -> Option<real>, fmt: real -> string)
    requires PorPerfis(all, req, dividendo, fmt).Success?
    ensures var it := PorPerfis(all, req, dividendo, fmt).value.itens;
      var s := SelecoesDe(all, req);
      |it| == |Todos(s)| && forall i | 0 <= i < |it| :: it[i].fii in all && ClassificarPerfil(Some(Todos(s)[i])) == it[i].tipo
  {
    PorPerfisItens(all, req, dividendo, fmt);
    var s := SelecoesDe(all, req);
    forall i | 0 <= i < |Todos(s)| ensures ClassificarPerfil(Some(Todos(s)[i])) == PerfilNaPosicao(s, i) {
      TodosClassificados(all, req, i);
    }
  }

  lemma {:induction false} Sum4(a: real, b: real, c: real, d: real)
    ensures Sum([a, b, c, d]) == a + b + c + d
  {
    assert [a, b, c, d][1..] == [b, c, d] && [b, c, d][1..] == [c, d] && [c, d][1..] == [d] && [d][1..] == [];
    assert Sum([d]) == d;
    assert Sum([c, d]) == c + d;
  }

  /** The four picks together hold at most the four quotas. */
  lemma {:induction false} SelecionarAteQuotas(todos: seq<FiiRanking>, qa: int, qp: int, qrc: int, qre: int)
    ensures |Todos(Selecionar(todos, qa, qp, qrc, qre))| <= Max(qa, 0) + Max(qp, 0) + Max(qrc, 0) + Max(qre, 0)
  {
    SelecoesDoPerfil(todos, qa, qp, qrc, qre, Perfil.Ancoragem);
    SelecoesDoPerfil(todos, qa, qp, qrc, qre, Potencial);
    SelecoesDoPerfil(todos, qa, qp, qrc, qre, RiscoControlado);
    SelecoesDoPerfil(todos, qa, qp, qrc, qre, RiscoElevado);
  }

  /** Non-negative percentages adding up to exactly 100 split the total into non-negative counts. */
  lemma {:induction false} QuantidadesPerfisSomam(req: CarteiraPerfisRequest)
    requires req.totalFiis > 0
    requires req.ancoragemPercentual >= 0.0 && req.potencialPercentual >= 0.0
    requires req.riscoControladoPercentual >= 0.0 && req.riscoElevadoPercentual >= 0.0
    requires req.ancoragemPercentual + req.potencialPercentual + req.riscoControladoPercentual + req.riscoElevadoPercentual == 100.0
    ensures var q := QuantidadesPerfis(req);
      |q| == 4 && q[0] >= 0 && q[1] >= 0 && q[2] >= 0 && q[3] >= 0 && q[0] + q[1] + q[2] + q[3] == req.totalFiis
  {
    var pesos := [req.ancoragemPercentual, req.potencialPercentual, req.riscoControladoPercentual, req.riscoElevadoPercentual];
    var q := QuantidadesPerfis(req);
    Sum4(pesos[0], pesos[1], pesos[2], pesos[3]);
    ChavesDosMetodos();
    QuantidadesSomam(req.totalFiis, pesos, ChavesPerfis);
    QuantidadesNaoNegativas(req.totalFiis, pesos, ChavesPerfis);
    Separa(q, 4);
    Soma4(q[0], q[1], q[2], q[3]);
  }

  /** With non-negative percentages adding up to exactly 100, no more funds are picked than requested. */
  lemma {:induction false} PerfisAteTotal(all: seq<Fii>, req: CarteiraPerfisRequest)
    requires req.totalFiis > 0
    requires req.ancoragemPercentual >= 0.0 && req.potencialPercentual >= 0.0
    requires req.riscoControladoPercentual >= 0.0 && req.riscoElevadoPercentual >= 0.0
    requires req.ancoragemPercentual + req.potencialPercentual + req.riscoControladoPercentual + req.riscoElevadoPercentual == 100.0
    ensures |Todos(SelecoesDe(all, req))| <= req.totalFiis
  {
    var q := QuantidadesPerfis(req);
    QuantidadesPerfisSomam(req);
    SelecionarAteQuotas(RankingMisto(all, Max(150, req.totalFiis * 12)), q[0], q[1], q[2], q[3]);
  }

  /**
   * Only the rounded sum is checked: a negative percentage passes as long as
   * the four add up to 100, and with an empty listing the portfolio is empty.
   */
  lemma {:induction false} PercentualNegativoAceito(dividendo: string -> Option<real>, fmt: real -> string)
    ensures var r := PorPerfis([], CarteiraPerfisRequest(-10.0, 110.0, 0.0, 0.0, 1), dividendo, fmt);
      r.Success? && r.value.itens == []
  {
    var req := CarteiraPerfisRequest(-10.0, 110.0, 0.0, 0.0, 1);
    CentsOfInt(10000);
    Round2OfCents(100.0);
    assert SomaPerfis(req) == 100.0;
    var s := SelecoesDe([], req);
    PorPerfisItens([], req, dividendo, fmt);
  }
}
