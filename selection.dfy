/**
 * The greedy, disjoint selection of the profile portfolio: `Pick` walks a
 * ranking in order and takes up to `qtd` funds whose ticker the shared
 * `usados` set (a HashSet with OrdinalIgnoreCase) did not hold yet.
 */
module Selecao {
  import opened Text
  import opened Seqs
  import opened Domain

  /** Tickers compare ignoring case: the set holds each one upper-cased. */
  function Chave(papel: string): string {
    ToUpper(papel)
  }

  /** HashSet<string>(StringComparer.OrdinalIgnoreCase). */
  class TickerSet {
    var chaves: set<string>

    constructor()
      ensures chaves == {}
    {
      chaves := {};
    }

    predicate Contem(papel: string)
      reads this
    {
      Chave(papel) in chaves
    }

    /** HashSet.Add: true when the ticker was new. */
    method Add(papel: string) returns (novo: bool)
      modifies this
      ensures novo <==> Chave(papel) !in old(chaves)
      ensures chaves == old(chaves) + {Chave(papel)}
    {
      novo := Chave(papel) !in chaves;
      chaves := chaves + {Chave(papel)};
    }
  }

  /** The funds picked and the used set afterwards. */
  datatype Escolha = Escolha(sel: seq<FiiRanking>, usados: set<string>)

  /** What Pick takes from `fonte` with `falta` places left and `usados` already used. */
  function Escolher(fonte: seq<FiiRanking>, falta: int, usados: set<string>): (e: Escolha)
    ensures |e.sel| <= |fonte|
    decreases |fonte|
  {
    if |fonte| == 0 || falta <= 0 then Escolha([], usados)
    else if Chave(fonte[0].papel) in usados then Escolher(fonte[1..], falta, usados)
    else
      var resto := Escolher(fonte[1..], falta - 1, usados + {Chave(fonte[0].papel)});
      Escolha([fonte[0]] + resto.sel, resto.usados)
  }

  /** Pick: the loop with its early break and the shared set. */
  method Pick(fonte: seq<FiiRanking>, qtd: int, usados: TickerSet) returns (result: seq<FiiRanking>)
    modifies usados
    ensures var e := Escolher(fonte, qtd, old(usados.chaves));
      result == e.sel && usados.chaves == e.usados
  {
    ghost var alvo := Escolher(fonte, qtd, usados.chaves);
    result := [];
    var i := 0;
    while i < |fonte|
      invariant 0 <= i <= |fonte|
      invariant var e := Escolher(fonte[i..], qtd - |result|, usados.chaves);
        result + e.sel == alvo.sel && e.usados == alvo.usados
    {
      if |result| >= qtd {
        break;
      }
      assert fonte[i..][1..] == fonte[i + 1..];
      ghost var c0 := usados.chaves;
      ghost var falta := qtd - |result|;
      var novo := usados.Add(fonte[i].papel);
      if novo {
        ghost var resto := Escolher(fonte[i + 1..], falta - 1, usados.chaves);
        assert Escolher(fonte[i..], falta, c0) == Escolha([fonte[i]] + resto.sel, resto.usados);
        assert result + [fonte[i]] + resto.sel == result + ([fonte[i]] + resto.sel);
        result := result + [fonte[i]];
      } else {
        assert usados.chaves == c0;
        assert Escolher(fonte[i..], falta, c0) == Escolher(fonte[i + 1..], falta, usados.chaves);
      }
      i := i + 1;
    }
  }

  // ---------------------------------------------------------------------
  // Properties
  // ---------------------------------------------------------------------

  function Chaves(s: seq<FiiRanking>): set<string> {
    set i | 0 <= i < |s| :: Chave(s[i].papel)
  }

  predicate SemRepetidos(s: seq<FiiRanking>) {
    forall i, j | 0 <= i < j < |s| :: Chave(s[i].papel) != Chave(s[j].papel)
  }

  lemma {:induction false} ChavesCons(x: FiiRanking, s: seq<FiiRanking>)
    ensures Chaves([x] + s) == {Chave(x.papel)} + Chaves(s)
  {
    var xs := [x] + s;
    forall y | y in Chaves(xs) ensures y in {Chave(x.papel)} + Chaves(s) {
      var i :| 0 <= i < |xs| && y == Chave(xs[i].papel);
      if i > 0 {
        assert xs[i] == s[i - 1];
        assert y in Chaves(s);
      } else {
        assert xs[0] == x;
      }
    }
    forall y | y in Chaves(s) ensures y in Chaves(xs) {
      var i :| 0 <= i < |s| && y == Chave(s[i].papel);
      assert xs[i + 1] == s[i];
      assert Chave(xs[i + 1].papel) in Chaves(xs);
    }
    assert xs[0] == x && Chave(xs[0].papel) in Chaves(xs);
  }

  /**
   * A pick is an in-order subsequence of its source, of at most `falta` funds,
   * none of them used before and no two with the same ticker; the used set then
   * grows by exactly the picked tickers.
   */
  lemma {:induction false} EscolherFacts(fonte: seq<FiiRanking>, falta: int, usados: set<string>)
    ensures var e := Escolher(fonte, falta, usados);
      && IsSubsequence(e.sel, fonte)
      && |e.sel| <= (if falta <= 0 then 0 else falta)
      && (forall i | 0 <= i < |e.sel| :: Chave(e.sel[i].papel) !in usados)
      && SemRepetidos(e.sel)
      && e.usados == usados + Chaves(e.sel)
    decreases |fonte|
  {
    var e := Escolher(fonte, falta, usados);
    if |fonte| == 0 || falta <= 0 {
      assert Chaves(e.sel) == {};
    } else if Chave(fonte[0].papel) in usados {
      EscolherFacts(fonte[1..], falta, usados);
    } else {
      var k := Chave(fonte[0].papel);
      var u := usados + {k};
      var resto := Escolher(fonte[1..], falta - 1, u);
      EscolherFacts(fonte[1..], falta - 1, u);
      assert e.sel == [fonte[0]] + resto.sel;
      assert e.sel[1..] == resto.sel;
      forall i | 0 < i < |e.sel| ensures Chave(e.sel[i].papel) !in usados && Chave(e.sel[i].papel) != k {
        assert e.sel[i] == resto.sel[i - 1];
      }
      ChavesCons(fonte[0], resto.sel);
    }
  }

  /**
   * Two picks made one after the other with the same set share no ticker: the
   * second one avoids everything the first one added.
   */
  lemma {:induction false} EscolhasDisjuntas(a: seq<FiiRanking>, qa: int, b: seq<FiiRanking>, qb: int, usados: set<string>)
    ensures var e1 := Escolher(a, qa, usados);
      var e2 := Escolher(b, qb, e1.usados);
      forall i, j | 0 <= i < |e1.sel| && 0 <= j < |e2.sel| :: Chave(e1.sel[i].papel) != Chave(e2.sel[j].papel)
  {
    var e1 := Escolher(a, qa, usados);
    EscolherFacts(a, qa, usados);
    EscolherFacts(b, qb, e1.usados);
    var e2 := Escolher(b, qb, e1.usados);
    forall i, j | 0 <= i < |e1.sel| && 0 <= j < |e2.sel| ensures Chave(e1.sel[i].papel) != Chave(e2.sel[j].papel) {
      assert Chave(e1.sel[i].papel) in Chaves(e1.sel);
    }
  }
}
