/**
 * The largest-remainder (Hamilton) apportionment of `CalcularQuantidades`
 * (three buckets) and `CalcularQuantidades4` (four buckets): bucket j first
 * gets floor(w_j / 100 * total); the units still missing are then handed out
 * one at a time, round-robin, over the buckets sorted by descending remainder.
 */
module Apportion {
  import opened Seqs
  import opened Sorting

  /** A bucket's key and the fractional part left after flooring its share. */
  type Resto = (string, real)

  /** OrderByDescending(x => x.resto). */
  function ChaveResto(x: Resto): seq<real> {
    [-x.1]
  }

  /** A bucket's exact share (w / 100) * total. */
  function Exato(peso: real, total: int): real {
    (peso / 100.0) * total as real
  }

  function Exatos(total: int, pesos: seq<real>): (e: seq<real>)
    ensures |e| == |pesos|
    ensures forall j | 0 <= j < |pesos| :: e[j] == Exato(pesos[j], total)
  {
    seq(|pesos|, j requires 0 <= j < |pesos| => Exato(pesos[j], total))
  }

  /** (int)Math.Floor of each exact share. */
  function Pisos(total: int, pesos: seq<real>): (p: seq<int>)
    ensures |p| == |pesos|
    ensures forall j | 0 <= j < |pesos| :: p[j] == Exatos(total, pesos)[j].Floor
  {
    var e := Exatos(total, pesos);
    seq(|pesos|, j requires 0 <= j < |pesos| => e[j].Floor)
  }

  /** The (key, exact - floor) list, in declaration order. */
  function Restos(total: int, pesos: seq<real>, chaves: seq<string>): (r: seq<Resto>)
    requires |chaves| == |pesos|
    ensures |r| == |pesos|
    ensures forall j | 0 <= j < |pesos| ::
      r[j] == (chaves[j], Exatos(total, pesos)[j] - Pisos(total, pesos)[j] as real)
  {
    var e, p := Exatos(total, pesos), Pisos(total, pesos);
    seq(|pesos|, j requires 0 <= j < |pesos| => (chaves[j], e[j] - p[j] as real))
  }

  /** `.OrderByDescending(x => x.resto)`: largest remainder first, ties in input order. */
  function OrdenarRestos(rs: seq<Resto>): (r: seq<Resto>)
    ensures |r| == |rs|
  {
    SortByKey(rs, ChaveResto)
  }

  function Ordenados(total: int, pesos: seq<real>, chaves: seq<string>): seq<Resto>
    requires |chaves| == |pesos|
  {
    OrdenarRestos(Restos(total, pesos, chaves))
  }

  /** `faltam`: the units the floors leave unassigned. */
  function Faltam(total: int, pesos: seq<real>): int {
    total - SumInt(Pisos(total, pesos))
  }

  /** First position of k, or -1. */
  function IndiceDe(chaves: seq<string>, k: string): (j: int)
    ensures -1 <= j < |chaves|
    ensures j >= 0 ==> chaves[j] == k && forall i | 0 <= i < j :: chaves[i] != k
    ensures j == -1 ==> k !in chaves
  {
    if |chaves| == 0 then -1
    else if chaves[0] == k then 0
    else
      var j := IndiceDe(chaves[1..], k);
      if j < 0 then -1 else j + 1
  }

  /**
   * The counter the if/else-if chain increments for key k: the first of all
   * but the last key that equals k, and otherwise the last one.
   */
  function Destino(chaves: seq<string>, k: string): (j: nat)
    requires |chaves| > 0
    ensures j < |chaves|
  {
    var i := IndiceDe(chaves[..|chaves| - 1], k);
    if i >= 0 then i else |chaves| - 1
  }

  function Zeros(n: nat): (z: seq<int>)
    ensures |z| == n && forall j | 0 <= j < n :: z[j] == 0
  {
    seq(n, _ => 0)
  }

  /** The extra units after m rounds of the `while (faltam > 0)` loop. */
  function Extras(ordem: seq<Resto>, m: int, chaves: seq<string>): (c: seq<int>)
    requires |ordem| > 0 && |chaves| > 0
    ensures |c| == |chaves|
    decreases m
  {
    if m <= 0 then Zeros(|chaves|)
    else
      var c := Extras(ordem, m - 1, chaves);
      var j := Destino(chaves, ordem[(m - 1) % |ordem|].0);
      c[j := c[j] + 1]
  }

  function Somar(a: seq<int>, b: seq<int>): (s: seq<int>)
    requires |a| == |b|
    ensures |s| == |a| && forall j | 0 <= j < |a| :: s[j] == a[j] + b[j]
  {
    seq(|a|, j requires 0 <= j < |a| => a[j] + b[j])
  }

  lemma {:induction false} SomarDe(q: seq<int>, a: seq<int>, b: seq<int>)
    requires |q| == |a| == |b| && forall j | 0 <= j < |q| :: q[j] == a[j] + b[j]
    ensures q == Somar(a, b)
  {
  }

  /** The counts the loop returns: floor plus extras. */
  function Quantidades(total: int, pesos: seq<real>, chaves: seq<string>): (q: seq<int>)
    requires |chaves| == |pesos| > 0
    ensures |q| == |pesos|
  {
    Somar(Pisos(total, pesos), Extras(Ordenados(total, pesos, chaves), Faltam(total, pesos), chaves))
  }

  /** One more loop round adds one unit to the counter its key selects. */
  lemma {:induction false} ExtrasPasso(ordem: seq<Resto>, i: nat, chaves: seq<string>)
    requires |ordem| > 0 && |chaves| > 0
    ensures forall x | 0 <= x < |chaves| ::
      Extras(ordem, i + 1, chaves)[x] == Extras(ordem, i, chaves)[x] + (if x == Destino(chaves, ordem[i % |ordem|].0) then 1 else 0)
  {
  }

  /** The pieces a method computed assemble into the specification's counts. */
  lemma {:induction false} Monta(total: int, pesos: seq<real>, chaves: seq<string>, pisos: seq<int>,
                                 lista: seq<Resto>, faltam: int, q: seq<int>)
    requires |chaves| == |pesos| > 0
    requires pisos == Pisos(total, pesos) && lista == Restos(total, pesos, chaves)
    requires faltam == Faltam(total, pesos)
    requires q == Somar(pisos, Extras(OrdenarRestos(lista), faltam, chaves))
    ensures q == Quantidades(total, pesos, chaves)
  {
  }

  const ChavesTpr: seq<string> := ["T", "P", "R"]
  const ChavesPerfis: seq<string> := ["A", "P", "RC", "RE"]

  /**
   * The `while (faltam > 0)` loop both methods share: round i adds one unit to
   * the counter that the key of `restos[i % restos.Count]` selects.
   */
  method DistribuirFaltantes(restos: seq<Resto>, chaves: seq<string>, pisos: seq<int>, faltam0: int)
    returns (q: seq<int>)
    requires |restos| > 0 && |chaves| == |pisos| > 0
    ensures q == Somar(pisos, Extras(restos, faltam0, chaves))
  {
    q := pisos;
    var faltam := faltam0;
    var i := 0;
    while faltam > 0
      invariant 0 <= i && faltam == faltam0 - i
      invariant i == 0 || faltam >= 0
      invariant q == Somar(pisos, Extras(restos, i, chaves))
      decreases faltam
    {
      var j := Destino(chaves, restos[i % |restos|].0);
      SomarPasso(pisos, Extras(restos, i, chaves), j);
      q := q[j := q[j] + 1];
      faltam := faltam - 1;
      i := i + 1;
    }
  }

  lemma {:induction false} SomarPasso(a: seq<int>, b: seq<int>, j: nat)
    requires |a| == |b| && j < |a|
    ensures Somar(a, b[j := b[j] + 1]) == Somar(a, b)[j := Somar(a, b)[j] + 1]
  {
  }

  /** CalcularQuantidades: (tijolo, papel, risco) counts for `totalFiis` funds. */
  method CalcularQuantidades(totalFiis: int, pesoTijolo: real, pesoPapel: real, pesoRisco: real)
    returns (qtdTijolo: int, qtdPapel: int, qtdRisco: int)
    ensures [qtdTijolo, qtdPapel, qtdRisco] == Quantidades(totalFiis, [pesoTijolo, pesoPapel, pesoRisco], ChavesTpr)
  {
    var exT := Exato(pesoTijolo, totalFiis);
    var exP := Exato(pesoPapel, totalFiis);
    var exR := Exato(pesoRisco, totalFiis);
    var t, p, r := exT.Floor, exP.Floor, exR.Floor;
    var soma := t + p + r;
    var faltam := totalFiis - soma;
    var lista := [("T", exT - t as real), ("P", exP - p as real), ("R", exR - r as real)];
    var restos := OrdenarRestos(lista);
    var q := DistribuirFaltantes(restos, ChavesTpr, [t, p, r], faltam);
    Inicio3(totalFiis, pesoTijolo, pesoPapel, pesoRisco, t, p, r, lista);
    Monta(totalFiis, [pesoTijolo, pesoPapel, pesoRisco], ChavesTpr, [t, p, r], lista, faltam, q);
    Separa(q, 3);
    qtdTijolo, qtdPapel, qtdRisco := q[0], q[1], q[2];
  }

  /** A three- or four-element count list is the tuple of its elements. */
  lemma {:induction false} Separa(q: seq<int>, n: nat)
    requires |q| == n && (n == 3 || n == 4)
    ensures n == 3 ==> q == [q[0], q[1], q[2]]
    ensures n == 4 ==> q == [q[0], q[1], q[2], q[3]]
  {
  }

  /** The method's floors, remainder list and `faltam` are the specification's. */
  lemma {:induction false} Inicio3(total: int, wt: real, wp: real, wr: real, t: int, p: int, r: int, lista: seq<Resto>)
    requires t == Exato(wt, total).Floor && p == Exato(wp, total).Floor && r == Exato(wr, total).Floor
    requires lista == [("T", Exato(wt, total) - t as real), ("P", Exato(wp, total) - p as real), ("R", Exato(wr, total) - r as real)]
    ensures [t, p, r] == Pisos(total, [wt, wp, wr])
    ensures lista == Restos(total, [wt, wp, wr], ChavesTpr)
    ensures total - (t + p + r) == Faltam(total, [wt, wp, wr])
  {
    assert [t, p, r] == Pisos(total, [wt, wp, wr]);
    Soma3(t, p, r);
  }

  lemma {:induction false} Soma3(a: int, b: int, c: int)
    ensures SumInt([a, b, c]) == a + b + c
  {
    assert [a, b, c][1..] == [b, c] && [b, c][1..] == [c] && [c][1..] == [];
    assert SumInt([c]) == c;
    assert SumInt([b, c]) == b + c;
  }

  /** CalcularQuantidades4: (ancoragem, potencial, risco controlado, risco elevado) counts. */
  method CalcularQuantidades4(total: int, pa: real, pp: real, prc: real, pre: real)
    returns (a: int, p: int, rc: int, re: int)
    ensures [a, p, rc, re] == Quantidades(total, [pa, pp, prc, pre], ChavesPerfis)
  {
    var exA := Exato(pa, total);
    var exP := Exato(pp, total);
    var exRC := Exato(prc, total);
    var exRE := Exato(pre, total);
    a, p, rc, re := exA.Floor, exP.Floor, exRC.Floor, exRE.Floor;
    var soma := a + p + rc + re;
    var faltam := total - soma;
    var lista := [("A", exA - a as real), ("P", exP - p as real), ("RC", exRC - rc as real), ("RE", exRE - re as real)];
    var restos := OrdenarRestos(lista);
    var q := DistribuirFaltantes(restos, ChavesPerfis, [a, p, rc, re], faltam);
    Inicio4(total, pa, pp, prc, pre, a, p, rc, re, lista);
    Monta(total, [pa, pp, prc, pre], ChavesPerfis, [a, p, rc, re], lista, faltam, q);
    Separa(q, 4);
    a, p, rc, re := q[0], q[1], q[2], q[3];
  }

  lemma {:induction false} Inicio4(total: int, wa: real, wp: real, wrc: real, wre: real, a: int, p: int, rc: int, re: int, lista: seq<Resto>)
    requires a == Exato(wa, total).Floor && p == Exato(wp, total).Floor
    requires rc == Exato(wrc, total).Floor && re == Exato(wre, total).Floor
    requires lista == [("A", Exato(wa, total) - a as real), ("P", Exato(wp, total) - p as real),
      ("RC", Exato(wrc, total) - rc as real), ("RE", Exato(wre, total) - re as real)]
    ensures [a, p, rc, re] == Pisos(total, [wa, wp, wrc, wre])
    ensures lista == Restos(total, [wa, wp, wrc, wre], ChavesPerfis)
    ensures total - (a + p + rc + re) == Faltam(total, [wa, wp, wrc, wre])
  {
    assert [a, p, rc, re] == Pisos(total, [wa, wp, wrc, wre]);
    Soma4(a, p, rc, re);
  }

  lemma {:induction false} Soma4(a: int, b: int, c: int, d: int)
    ensures SumInt([a, b, c, d]) == a + b + c + d
  {
    assert [a, b, c, d][1..] == [b, c, d];
    Soma3(b, c, d);
  }

  /** The if/else-if chains of the two methods pick the counter Destino names. */
  lemma {:induction false} DestinoTpr(k: string)
    ensures Destino(ChavesTpr, k) == if k == "T" then 0 else if k == "P" then 1 else 2
  {
    assert ChavesTpr[..2] == ["T", "P"];
    assert ["T", "P"][1..] == ["P"];
  }

  lemma {:induction false} DestinoPerfis(k: string)
    ensures Destino(ChavesPerfis, k) == if k == "A" then 0 else if k == "P" then 1 else if k == "RC" then 2 else 3
  {
    assert ChavesPerfis[..3] == ["A", "P", "RC"];
    assert ["A", "P", "RC"][1..] == ["P", "RC"];
    assert ["P", "RC"][1..] == ["RC"];
  }

  // ---------------------------------------------------------------
  // Properties of the apportionment
  // ---------------------------------------------------------------

  predicate ChavesDistintas(chaves: seq<string>) {
    forall a, b | 0 <= a < b < |chaves| :: chaves[a] != chaves[b]
  }

  /** Bucket j's remainder exact - floor. */
  function RestoDe(total: int, pesos: seq<real>, j: nat): real
    requires j < |pesos|
  {
    Exatos(total, pesos)[j] - Pisos(total, pesos)[j] as real
  }

  lemma {:induction false} SomaZeros(n: nat)
    ensures SumInt(Zeros(n)) == 0
  {
    if n > 0 {
      assert Zeros(n)[1..] == Zeros(n - 1);
      SomaZeros(n - 1);
    }
  }

  /** m rounds hand out m units in total. */
  lemma {:induction false} SomaExtras(ordem: seq<Resto>, m: int, chaves: seq<string>)
    requires |ordem| > 0 && |chaves| > 0
    ensures SumInt(Extras(ordem, m, chaves)) == if m <= 0 then 0 else m
    decreases m
  {
    if m <= 0 {
      SomaZeros(|chaves|);
    } else {
      var c := Extras(ordem, m - 1, chaves);
      var j := Destino(chaves, ordem[(m - 1) % |ordem|].0);
      SomaExtras(ordem, m - 1, chaves);
      SumIntUpdate(c, j, c[j] + 1);
    }
  }

  lemma {:induction false} SomaSomar(a: seq<int>, b: seq<int>)
    requires |a| == |b|
    ensures SumInt(Somar(a, b)) == SumInt(a) + SumInt(b)
  {
    if |a| > 0 {
      assert Somar(a, b)[1..] == Somar(a[1..], b[1..]);
      SomaSomar(a[1..], b[1..]);
    }
  }

  /** The exact shares add up to total * (sum of weights) / 100. */
  lemma {:induction false} SomaExatos(total: int, pesos: seq<real>)
    ensures Sum(Exatos(total, pesos)) == (Sum(pesos) / 100.0) * total as real
  {
    if |pesos| > 0 {
      assert Exatos(total, pesos)[1..] == Exatos(total, pesos[1..]);
      SomaExatos(total, pesos[1..]);
      var w, r, t := pesos[0], Sum(pesos[1..]), total as real;
      assert (w / 100.0) * t + (r / 100.0) * t == ((w + r) / 100.0) * t;
    }
  }

  /** The floors add up to at most the exact sum, and to less than one unit per bucket below it. */
  lemma {:induction false} SomaPisos(total: int, pesos: seq<real>)
    ensures SumInt(Pisos(total, pesos)) as real <= Sum(Exatos(total, pesos))
    ensures |pesos| > 0 ==> Sum(Exatos(total, pesos)) < (SumInt(Pisos(total, pesos)) + |pesos|) as real
  {
    if |pesos| > 0 {
      assert Exatos(total, pesos)[1..] == Exatos(total, pesos[1..]);
      assert Pisos(total, pesos)[1..] == Pisos(total, pesos[1..]);
      SomaPisos(total, pesos[1..]);
    }
  }

  /** With weights summing to 100, between 0 and n - 1 units are left after flooring. */
  lemma {:induction false} FaltamLimites(total: int, pesos: seq<real>)
    requires |pesos| > 0 && Sum(pesos) == 100.0
    ensures 0 <= Faltam(total, pesos) < |pesos|
  {
    SomaExatos(total, pesos);
    SomaPisos(total, pesos);
  }

  /** Destino sends each of distinct keys to its own counter. */
  lemma {:induction false} DestinoDaChave(chaves: seq<string>, x: nat)
    requires ChavesDistintas(chaves) && x < |chaves|
    ensures Destino(chaves, chaves[x]) == x
  {
    var pre := chaves[..|chaves| - 1];
    var i := IndiceDe(pre, chaves[x]);
    if x < |chaves| - 1 {
      assert pre[x] == chaves[x];
    } else {
      assert chaves[x] !in pre;
    }
  }

  /** While no round wraps around, the first m buckets in order get one extra unit each, the rest none. */
  lemma {:induction false} ExtrasSemVolta(ordem: seq<Resto>, m: nat, chaves: seq<string>)
    requires |ordem| > 0 && |chaves| > 0 && m <= |ordem|
    requires forall a, b | 0 <= a < b < |ordem| :: Destino(chaves, ordem[a].0) != Destino(chaves, ordem[b].0)
    ensures forall k | 0 <= k < |ordem| :: Extras(ordem, m, chaves)[Destino(chaves, ordem[k].0)] == if k < m then 1 else 0
  {
    if m > 0 {
      ExtrasSemVolta(ordem, m - 1, chaves);
      var c := Extras(ordem, m - 1, chaves);
      assert (m - 1) % |ordem| == m - 1;
      var j := Destino(chaves, ordem[m - 1].0);
      assert Extras(ordem, m, chaves) == c[j := c[j] + 1];
      forall k | 0 <= k < |ordem|
        ensures Extras(ordem, m, chaves)[Destino(chaves, ordem[k].0)] == if k < m then 1 else 0
      {
        var d := Destino(chaves, ordem[k].0);
        if k == m - 1 {
          assert d == j && c[d] == 0;
        } else {
          assert d != j;
        }
      }
    }
  }

  /** The k-th bucket in sorted order gets an extra unit exactly when k < Faltam. */
  lemma {:induction false} ExtrasDeQuantidades(total: int, pesos: seq<real>, chaves: seq<string>)
    requires |chaves| == |pesos| > 0 && ChavesDistintas(chaves) && Sum(pesos) == 100.0
    ensures 0 <= Faltam(total, pesos) < |pesos|
    ensures var ord := Order(Restos(total, pesos, chaves), ChaveResto);
      var e := Extras(Ordenados(total, pesos, chaves), Faltam(total, pesos), chaves);
      forall k | 0 <= k < |chaves| :: e[ord[k]] == if k < Faltam(total, pesos) then 1 else 0
  {
    var rs := Restos(total, pesos, chaves);
    var ordem := Ordenados(total, pesos, chaves);
    var ord := Order(rs, ChaveResto);
    FaltamLimites(total, pesos);
    forall k | 0 <= k < |ordem| ensures Destino(chaves, ordem[k].0) == ord[k] {
      DestinoDaChave(chaves, ord[k]);
    }
    OrderFacts(rs, ChaveResto);
    ExtrasSemVolta(ordem, Faltam(total, pesos), chaves);
  }

  /** Hamilton's method hands out exactly the total, for weights summing to 100. */
  lemma {:induction false} QuantidadesSomam(total: int, pesos: seq<real>, chaves: seq<string>)
    requires |chaves| == |pesos| > 0 && Sum(pesos) == 100.0
    ensures SumInt(Quantidades(total, pesos, chaves)) == total
  {
    var ordem := Ordenados(total, pesos, chaves);
    FaltamLimites(total, pesos);
    SomaExtras(ordem, Faltam(total, pesos), chaves);
    SomaSomar(Pisos(total, pesos), Extras(ordem, Faltam(total, pesos), chaves));
  }

  /** Values fixed along a permutation of the positions: 1 before f, 0 after. */
  lemma {:induction false} ZeroOuUm(e: seq<int>, ord: seq<nat>, f: int)
    requires |ord| == |e| && InRange(ord, |e|) && forall j | 0 <= j < |e| :: j in ord
    requires forall k | 0 <= k < |ord| :: e[ord[k]] == if k < f then 1 else 0
    ensures forall j | 0 <= j < |e| :: e[j] == 0 || e[j] == 1
  {
    forall j | 0 <= j < |e| ensures e[j] == 0 || e[j] == 1 {
      assert j in ord;
      var k :| 0 <= k < |ord| && ord[k] == j;
    }
  }

  /** Every bucket gets at most one extra unit. */
  lemma {:induction false} ExtrasZeroOuUm(total: int, pesos: seq<real>, chaves: seq<string>)
    requires |chaves| == |pesos| > 0 && ChavesDistintas(chaves) && Sum(pesos) == 100.0
    ensures forall j | 0 <= j < |chaves| ::
      Extras(Ordenados(total, pesos, chaves), Faltam(total, pesos), chaves)[j] == 0 ||
      Extras(Ordenados(total, pesos, chaves), Faltam(total, pesos), chaves)[j] == 1
  {
    var rs := Restos(total, pesos, chaves);
    ExtrasDeQuantidades(total, pesos, chaves);
    OrderFacts(rs, ChaveResto);
    ZeroOuUm(Extras(Ordenados(total, pesos, chaves), Faltam(total, pesos), chaves), Order(rs, ChaveResto), Faltam(total, pesos));
  }

  /** Adding zeros and ones to a sequence. */
  lemma {:induction false} SomarZeroOuUm(p: seq<int>, e: seq<int>)
    requires |p| == |e| && forall j | 0 <= j < |e| :: e[j] == 0 || e[j] == 1
    ensures forall j | 0 <= j < |p| :: Somar(p, e)[j] == p[j] || Somar(p, e)[j] == p[j] + 1
    ensures (forall j | 0 <= j < |p| :: p[j] >= 0) ==> forall j | 0 <= j < |p| :: Somar(p, e)[j] >= 0
  {
  }

  /** Each count is its floor or one more. */
  lemma {:induction false} QuantidadesPisoOuMais(total: int, pesos: seq<real>, chaves: seq<string>)
    requires |chaves| == |pesos| > 0 && ChavesDistintas(chaves) && Sum(pesos) == 100.0
    ensures var q, p := Quantidades(total, pesos, chaves), Pisos(total, pesos);
      forall j | 0 <= j < |q| :: q[j] == p[j] || q[j] == p[j] + 1
  {
    ExtrasZeroOuUm(total, pesos, chaves);
    SomarZeroOuUm(Pisos(total, pesos), Extras(Ordenados(total, pesos, chaves), Faltam(total, pesos), chaves));
  }

  /** Non-negative weights and a non-negative total give non-negative counts. */
  lemma {:induction false} QuantidadesNaoNegativas(total: int, pesos: seq<real>, chaves: seq<string>)
    requires |chaves| == |pesos| > 0 && ChavesDistintas(chaves) && Sum(pesos) == 100.0
    requires total >= 0 && forall j | 0 <= j < |pesos| :: pesos[j] >= 0.0
    ensures forall j | 0 <= j < |pesos| :: Quantidades(total, pesos, chaves)[j] >= 0
  {
    ExtrasZeroOuUm(total, pesos, chaves);
    forall j | 0 <= j < |pesos| ensures Pisos(total, pesos)[j] >= 0 {
      assert Exato(pesos[j], total) >= 0.0;
    }
    SomarZeroOuUm(Pisos(total, pesos), Extras(Ordenados(total, pesos, chaves), Faltam(total, pesos), chaves));
  }

  /** In the stable descending sort, an earlier position has a larger remainder, or an equal one and an earlier index. */
  lemma {:induction false} OrdemDosRestos(rs: seq<Resto>, ia: nat, ib: nat)
    requires ia < ib < |rs|
    ensures var ord := Order(rs, ChaveResto);
      rs[ord[ia]].1 > rs[ord[ib]].1 || (rs[ord[ia]].1 == rs[ord[ib]].1 && ord[ia] < ord[ib])
  {
    var ordem := SortByKey(rs, ChaveResto);
    assert LexLe(ChaveResto(ordem[ia]), ChaveResto(ordem[ib]));
    if ordem[ia].1 == ordem[ib].1 {
      SortByKeyStable(rs, ChaveResto, ia, ib);
    }
  }

  /**
   * The extra units go to the largest remainders: a bucket that gets one has a
   * larger remainder than any bucket that does not, or an equal one and an
   * earlier declaration (OrderByDescending is stable).
   */
  lemma {:induction false} QuantidadesMaioresRestos(total: int, pesos: seq<real>, chaves: seq<string>, a: nat, b: nat)
    requires |chaves| == |pesos| > 0 && ChavesDistintas(chaves) && Sum(pesos) == 100.0
    requires a < |pesos| && b < |pesos|
    requires Quantidades(total, pesos, chaves)[a] == Pisos(total, pesos)[a] + 1
    requires Quantidades(total, pesos, chaves)[b] == Pisos(total, pesos)[b]
    ensures RestoDe(total, pesos, a) > RestoDe(total, pesos, b) ||
      (RestoDe(total, pesos, a) == RestoDe(total, pesos, b) && a < b)
  {
    var rs := Restos(total, pesos, chaves);
    var ord := Order(rs, ChaveResto);
    var f := Faltam(total, pesos);
    var e := Extras(Ordenados(total, pesos, chaves), f, chaves);
    ExtrasDeQuantidades(total, pesos, chaves);
    OrderFacts(rs, ChaveResto);
    assert a in ord && b in ord;
    var ia :| 0 <= ia < |ord| && ord[ia] == a;
    var ib :| 0 <= ib < |ord| && ord[ib] == b;
    assert e[a] == 1 && e[b] == 0;
    OrdemDosRestos(rs, ia, ib);
  }

  /** Both key lists are distinct, so the facts hold for both methods. */
  lemma {:induction false} ChavesDosMetodos()
    ensures ChavesDistintas(ChavesTpr) && ChavesDistintas(ChavesPerfis)
  {
  }
}
