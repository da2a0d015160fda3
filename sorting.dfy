/**
 * LINQ's OrderBy / OrderByDescending / ThenBy chains are stable sorts by a
 * composite key. Here a key is a sequence of decimals compared
 * lexicographically (a descending component is negated), and elements with
 * equal keys keep their input order, because the sort orders input positions
 * by (key, position).
 */
module Sorting {

  /** Strict lexicographic order; a proper prefix comes first. */
  predicate LexLess(a: seq<real>, b: seq<real>)
    decreases |a|
  {
    |b| > 0 && (|a| == 0 || a[0] < b[0] || (a[0] == b[0] && LexLess(a[1..], b[1..])))
  }

  predicate LexLe(a: seq<real>, b: seq<real>) {
    a == b || LexLess(a, b)
  }

  lemma {:induction false} LexIrreflexive(a: seq<real>)
    ensures !LexLess(a, a)
    decreases |a|
  {
    if |a| > 0 { LexIrreflexive(a[1..]); }
  }

  lemma {:induction false} LexTransitive(a: seq<real>, b: seq<real>, c: seq<real>)
    requires LexLess(a, b) && LexLess(b, c)
    ensures LexLess(a, c)
    decreases |a|
  {
    if |a| > 0 && a[0] == b[0] && b[0] == c[0] {
      LexTransitive(a[1..], b[1..], c[1..]);
    }
  }

  lemma {:induction false} LexTotal(a: seq<real>, b: seq<real>)
    ensures a == b || LexLess(a, b) || LexLess(b, a)
    decreases |a|
  {
    if |a| > 0 && |b| > 0 && a[0] == b[0] {
      LexTotal(a[1..], b[1..]);
      if a[1..] == b[1..] {
        assert a == [a[0]] + a[1..] && b == [b[0]] + b[1..];
      }
    }
  }

  /** Position i of s sorts before position j: smaller key, or equal key and earlier. */
  predicate Before<T>(s: seq<T>, key: T -> seq<real>, i: nat, j: nat)
    requires i < |s| && j < |s|
  {
    LexLess(key(s[i]), key(s[j])) || (key(s[i]) == key(s[j]) && i < j)
  }

  lemma {:induction false} BeforeTransitive<T>(s: seq<T>, key: T -> seq<real>, i: nat, j: nat, k: nat)
    requires i < |s| && j < |s| && k < |s|
    requires Before(s, key, i, j) && Before(s, key, j, k)
    ensures Before(s, key, i, k)
  {
    if LexLess(key(s[i]), key(s[j])) && LexLess(key(s[j]), key(s[k])) {
      LexTransitive(key(s[i]), key(s[j]), key(s[k]));
    }
  }

  lemma {:induction false} BeforeStrict<T>(s: seq<T>, key: T -> seq<real>, i: nat, j: nat)
    requires i < |s| && j < |s|
    ensures !(Before(s, key, i, j) && Before(s, key, j, i))
    ensures i != j ==> Before(s, key, i, j) || Before(s, key, j, i)
  {
    LexTotal(key(s[i]), key(s[j]));
    LexIrreflexive(key(s[i]));
    if LexLess(key(s[i]), key(s[j])) && LexLess(key(s[j]), key(s[i])) {
      LexTransitive(key(s[i]), key(s[j]), key(s[i]));
    }
  }

  predicate InRange(xs: seq<nat>, n: nat) {
    forall k | 0 <= k < |xs| :: xs[k] < n
  }

  predicate Distinct(xs: seq<nat>) {
    forall a, b | 0 <= a < b < |xs| :: xs[a] != xs[b]
  }

  predicate SortedPositions<T>(s: seq<T>, key: T -> seq<real>, xs: seq<nat>)
    requires InRange(xs, |s|)
  {
    forall a, b | 0 <= a < b < |xs| :: Before(s, key, xs[a], xs[b])
  }

  /** Inserts position i in front of the first position it sorts before. */
  function Insert<T>(s: seq<T>, key: T -> seq<real>, i: nat, xs: seq<nat>): (r: seq<nat>)
    requires i < |s| && InRange(xs, |s|)
    ensures InRange(r, |s|) && |r| == |xs| + 1
    ensures multiset(r) == multiset(xs) + multiset{i}
  {
    if |xs| == 0 then [i]
    else if Before(s, key, i, xs[0]) then [i] + xs
    else
      assert xs == [xs[0]] + xs[1..];
      [xs[0]] + Insert(s, key, i, xs[1..])
  }

  lemma {:induction false} InsertSorted<T>(s: seq<T>, key: T -> seq<real>, i: nat, xs: seq<nat>)
    requires i < |s| && InRange(xs, |s|)
    requires SortedPositions(s, key, xs) && i !in multiset(xs)
    ensures SortedPositions(s, key, Insert(s, key, i, xs))
  {
    var r := Insert(s, key, i, xs);
    if |xs| == 0 {
    } else if Before(s, key, i, xs[0]) {
      forall b | 0 < b < |r| ensures Before(s, key, r[0], r[b]) {
        if b > 1 { BeforeTransitive(s, key, i, xs[0], xs[b - 1]); }
      }
    } else {
      assert xs == [xs[0]] + xs[1..];
      var t := xs[1..];
      assert SortedPositions(s, key, t);
      InsertSorted(s, key, i, t);
      var it := Insert(s, key, i, t);
      assert i != xs[0];
      BeforeStrict(s, key, i, xs[0]);
      forall b | 0 <= b < |it| ensures Before(s, key, xs[0], it[b]) {
        var c := InsertSource(s, key, i, t, b);
        if c >= 0 { assert xs[c + 1] == t[c]; }
      }
      assert r == [xs[0]] + it;
    }
  }

  /** Each entry of Insert(i, xs) is i or comes from position c of xs. */
  lemma {:induction false} InsertSource<T>(s: seq<T>, key: T -> seq<real>, i: nat, xs: seq<nat>, b: nat)
    returns (c: int)
    requires i < |s| && InRange(xs, |s|) && b < |xs| + 1
    ensures (c == -1 && Insert(s, key, i, xs)[b] == i) || (0 <= c < |xs| && Insert(s, key, i, xs)[b] == xs[c])
  {
    if |xs| == 0 {
      c := -1;
    } else if Before(s, key, i, xs[0]) {
      c := b - 1;
      assert Insert(s, key, i, xs) == [i] + xs;
    } else {
      var t := Insert(s, key, i, xs[1..]);
      assert Insert(s, key, i, xs) == [xs[0]] + t;
      if b == 0 {
        c := 0;
      } else {
        var d := InsertSource(s, key, i, xs[1..], b - 1);
        assert Insert(s, key, i, xs)[b] == t[b - 1];
        if d >= 0 {
          c := d + 1;
          assert xs[1..][d] == xs[c];
        } else {
          c := -1;
        }
      }
    }
  }

  /** Insertion sort of a list of positions. */
  function SortPositions<T>(s: seq<T>, key: T -> seq<real>, xs: seq<nat>): (r: seq<nat>)
    requires InRange(xs, |s|)
    ensures InRange(r, |s|) && |r| == |xs|
    ensures multiset(r) == multiset(xs)
  {
    if |xs| == 0 then []
    else
      assert xs == [xs[0]] + xs[1..];
      Insert(s, key, xs[0], SortPositions(s, key, xs[1..]))
  }

  lemma {:induction false} SortPositionsSorted<T>(s: seq<T>, key: T -> seq<real>, xs: seq<nat>)
    requires InRange(xs, |s|) && Distinct(xs)
    ensures SortedPositions(s, key, SortPositions(s, key, xs))
  {
    if |xs| > 0 {
      assert xs == [xs[0]] + xs[1..];
      SortPositionsSorted(s, key, xs[1..]);
      assert xs[0] !in multiset(xs[1..]);
      InsertSorted(s, key, xs[0], SortPositions(s, key, xs[1..]));
    }
  }

  function Range(n: nat): (r: seq<nat>)
    ensures |r| == n && forall k | 0 <= k < n :: r[k] == k
  {
    seq(n, k requires 0 <= k < n => k)
  }

  /** The input positions of s in sorted order. */
  function Order<T>(s: seq<T>, key: T -> seq<real>): (p: seq<nat>)
    ensures |p| == |s| && InRange(p, |s|)
    ensures multiset(p) == multiset(Range(|s|))
  {
    SortPositions(s, key, Range(|s|))
  }

  /** Order is a permutation of 0..|s|-1, sorted by key, ties in input order. */
  lemma {:induction false} OrderFacts<T>(s: seq<T>, key: T -> seq<real>)
    ensures forall a, b | 0 <= a < b < |s| :: Before(s, key, Order(s, key)[a], Order(s, key)[b])
    ensures Distinct(Order(s, key))
    ensures forall i | 0 <= i < |s| :: i in Order(s, key)
  {
    var p := Order(s, key);
    SortPositionsSorted(s, key, Range(|s|));
    forall a, b | 0 <= a < b < |s| ensures p[a] != p[b] {
      BeforeStrict(s, key, p[a], p[b]);
    }
    forall i | 0 <= i < |s| ensures i in p {
      assert Range(|s|)[i] == i;
      assert i in multiset(Range(|s|));
    }
  }

  function Gather<T>(s: seq<T>, xs: seq<nat>): (r: seq<T>)
    requires InRange(xs, |s|)
    ensures |r| == |xs| && forall k | 0 <= k < |xs| :: r[k] == s[xs[k]]
  {
    seq(|xs|, k requires 0 <= k < |xs| => s[xs[k]])
  }

  lemma {:induction false} GatherCons<T>(s: seq<T>, x: nat, xs: seq<nat>)
    requires x < |s| && InRange(xs, |s|)
    ensures InRange([x] + xs, |s|)
    ensures Gather(s, [x] + xs) == [s[x]] + Gather(s, xs)
  {
  }

  lemma {:induction false} GatherInsert<T>(s: seq<T>, key: T -> seq<real>, i: nat, xs: seq<nat>)
    requires i < |s| && InRange(xs, |s|)
    ensures multiset(Gather(s, Insert(s, key, i, xs))) == multiset(Gather(s, xs)) + multiset{s[i]}
  {
    if |xs| == 0 {
      GatherCons(s, i, []);
    } else if Before(s, key, i, xs[0]) {
      GatherCons(s, i, xs);
    } else {
      var t := xs[1..];
      assert xs == [xs[0]] + t;
      var it := Insert(s, key, i, t);
      GatherInsert(s, key, i, t);
      assert Insert(s, key, i, xs) == [xs[0]] + it;
      GatherCons(s, xs[0], it);
      GatherCons(s, xs[0], t);
      MultisetConsStep(s[xs[0]], Gather(s, it), Gather(s, t), s[i]);
    }
  }

  lemma {:induction false} MultisetConsStep<T>(x: T, g: seq<T>, h: seq<T>, y: T)
    requires multiset(g) == multiset(h) + multiset{y}
    ensures multiset([x] + g) == multiset([x] + h) + multiset{y}
  {
    assert multiset([x] + g) == multiset{x} + multiset(g);
    assert multiset([x] + h) == multiset{x} + multiset(h);
  }

  lemma {:induction false} GatherSort<T>(s: seq<T>, key: T -> seq<real>, xs: seq<nat>)
    requires InRange(xs, |s|)
    ensures multiset(Gather(s, SortPositions(s, key, xs))) == multiset(Gather(s, xs))
  {
    if |xs| > 0 {
      var t := xs[1..];
      assert xs == [xs[0]] + t;
      var sp := SortPositions(s, key, t);
      assert SortPositions(s, key, xs) == Insert(s, key, xs[0], sp);
      GatherSort(s, key, t);
      GatherInsert(s, key, xs[0], sp);
      GatherCons(s, xs[0], t);
      var h := Gather(s, t);
      assert multiset([s[xs[0]]] + h) == multiset{s[xs[0]]} + multiset(h);
    }
  }

  /** The stable sort: s rearranged by Order. */
  function SortByKey<T>(s: seq<T>, key: T -> seq<real>): (r: seq<T>)
    ensures |r| == |s|
    ensures forall k | 0 <= k < |s| :: r[k] == s[Order(s, key)[k]]
    ensures forall a, b | 0 <= a < b < |r| :: LexLe(key(r[a]), key(r[b]))
    ensures multiset(r) == multiset(s)
  {
    var p := Order(s, key);
    OrderFacts(s, key);
    GatherSort(s, key, Range(|s|));
    assert Gather(s, Range(|s|)) == s;
    Gather(s, p)
  }

  /** Stability: among equal keys the sorted sequence keeps input order. */
  lemma {:induction false} SortByKeyStable<T>(s: seq<T>, key: T -> seq<real>, a: nat, b: nat)
    requires a < b < |s|
    requires key(SortByKey(s, key)[a]) == key(SortByKey(s, key)[b])
    ensures Order(s, key)[a] < Order(s, key)[b]
  {
    OrderFacts(s, key);
    LexIrreflexive(key(SortByKey(s, key)[a]));
  }

  /** A sorted sequence's prefix precedes every element left outside it. */
  lemma {:induction false} TakeKeepsBest<T>(sorted: seq<T>, key: T -> seq<real>, n: nat, x: T)
    requires forall a, b | 0 <= a < b < |sorted| :: LexLe(key(sorted[a]), key(sorted[b]))
    requires n <= |sorted| && x in sorted && x !in sorted[..n]
    ensures forall a | 0 <= a < n :: LexLe(key(sorted[a]), key(x))
  {
    var j :| 0 <= j < |sorted| && sorted[j] == x;
  }
}
