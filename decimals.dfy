/**
 * C# `decimal` is exact base-10 arithmetic; the model uses `real`.
 * `Math.Round(x, d)` defaults to banker's rounding (half to even).
 */
module Decimals {

  /** Nearest integer, ties to the even neighbour (MidpointRounding.ToEven). */
  function RoundHalfEven(x: real): (n: int)
    ensures x - 0.5 <= n as real <= x + 0.5
    ensures n as real - x == 0.5 || x - n as real == 0.5 ==> n % 2 == 0
  {
    var f := x.Floor;
    var d := x - f as real;
    if d < 0.5 then f
    else if d > 0.5 then f + 1
    else if f % 2 == 0 then f
    else f + 1
  }

  lemma {:induction false} RoundHalfEvenOfInt(n: int)
    ensures RoundHalfEven(n as real) == n
  {
    assert (n as real).Floor == n;
  }

  /** x has at most two decimal places. */
  predicate IsCents(x: real) {
    (x * 100.0).Floor as real == x * 100.0
  }

  /** x is a whole multiple of 0.05. */
  predicate IsTwentieth(x: real) {
    (x * 20.0).Floor as real == x * 20.0
  }

  lemma {:induction false} TwentiethIsCents(x: real)
    requires IsTwentieth(x)
    ensures IsCents(x)
  {
    var k := (x * 20.0).Floor;
    assert x * 100.0 == (5 * k) as real;
  }

  lemma {:induction false} CentsOfInt(k: int)
    ensures IsCents(k as real / 100.0)
  {
    assert (k as real / 100.0) * 100.0 == k as real;
  }

  lemma {:induction false} CentsAdd(x: real, y: real)
    requires IsCents(x) && IsCents(y)
    ensures IsCents(x + y) && IsCents(x - y)
  {
    var a, b := (x * 100.0).Floor, (y * 100.0).Floor;
    assert x * 100.0 == a as real && y * 100.0 == b as real;
    assert (x + y) * 100.0 == (a + b) as real;
    assert ((a + b) as real).Floor == a + b;
    assert (x - y) * 100.0 == (a - b) as real;
    assert ((a - b) as real).Floor == a - b;
  }

  /** Math.Round(x, 2). */
  function Round2(x: real): (r: real)
    ensures IsCents(r)
    ensures x - 0.005 <= r <= x + 0.005
  {
    var n := RoundHalfEven(x * 100.0);
    CentsOfInt(n);
    n as real / 100.0
  }

  /** Rounding a value that already has two decimals changes nothing. */
  lemma {:induction false} Round2OfCents(x: real)
    requires IsCents(x)
    ensures Round2(x) == x
  {
    var k := (x * 100.0).Floor;
    RoundHalfEvenOfInt(k);
  }

  /** x has at most six decimal places. */
  predicate IsMillionths(x: real) {
    (x * 1000000.0).Floor as real == x * 1000000.0
  }

  lemma {:induction false} MillionthsOfInt(k: int)
    ensures IsMillionths(k as real / 1000000.0)
  {
    assert (k as real / 1000000.0) * 1000000.0 == k as real;
  }

  /** Math.Round(x, 6). */
  function Round6(x: real): (r: real)
    ensures IsMillionths(r)
    ensures x - 0.0000005 <= r <= x + 0.0000005
  {
    var n := RoundHalfEven(x * 1000000.0);
    MillionthsOfInt(n);
    n as real / 1000000.0
  }

  /** Math.Ceiling, for the values the (int) cast of the source receives. */
  function Ceil(x: real): (n: int)
    ensures n as real >= x && (n - 1) as real < x
  {
    var f := x.Floor;
    if f as real == x then f else f + 1
  }

  function Max(a: int, b: int): int { if a < b then b else a }
  function MaxReal(a: real, b: real): real { if a < b then b else a }
  function MinReal(a: real, b: real): real { if a < b then a else b }
}
